/** The host `div` that `canvas` refers to, as the component measures it,
    and the mapping of pointer events into its local coordinates. */
module Arena {

  /** `offsetWidth`/`offsetHeight` (whole pixels) and the top-left corner
      `getBoundingClientRect().x`/`.y` in client coordinates. */
  datatype Host = Host(width: nat, height: nat, left: real, top: real)

  datatype Point = Point(x: real, y: real)

  /** Client coordinates of a pointer event, made relative to the host's corner. */
  function ToLocal(host: Host, clientX: real, clientY: real): (p: Point)
    ensures ToClient(host, p) == Point(clientX, clientY)
    ensures clientX == host.left && clientY == host.top <==> p == Point(0.0, 0.0)
  {
    Point(clientX - host.left, clientY - host.top)
  }

  /** The inverse mapping: a local point back to client coordinates. */
  function ToClient(host: Host, p: Point): Point
  {
    Point(p.x + host.left, p.y + host.top)
  }

  /** A point inside the host's box maps to a point inside the arena. */
  lemma InsideHost(host: Host, clientX: real, clientY: real)
    requires host.left <= clientX <= host.left + host.width as real
    requires host.top <= clientY <= host.top + host.height as real
    ensures var p := ToLocal(host, clientX, clientY);
            0.0 <= p.x <= host.width as real && 0.0 <= p.y <= host.height as real
  {
  }

  /** Local coordinates do not depend on where the host sits: moving the
      host and the pointer by the same offset gives the same local point. */
  lemma TranslationInvariant(host: Host, clientX: real, clientY: real, dx: real, dy: real)
    ensures ToLocal(host.(left := host.left + dx, top := host.top + dy), clientX + dx, clientY + dy)
         == ToLocal(host, clientX, clientY)
  {
  }
}
