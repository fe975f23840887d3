/** The 2-D drawing calls the page issues, as values. A drawing routine is
    modelled as the ordered list of the calls it makes on its context.
    Angles are counted in quarter turns: quarter q stands for q * pi / 2. */
module Canvas {

  datatype Command =
    /** clearRect(x, y, w, h) */
    | Clear(x: real, y: real, w: real, h: real)
    /** canvas.width = width; canvas.height = height (whole pixels) */
    | Resize(width: int, height: int)
    /** drawImage(img, x, y, w, h) */
    | DrawImage(x: real, y: real, w: real, h: real)
    /** strokeRect(x, y, w, h) */
    | Rect(x: real, y: real, w: real, h: real)
    /** beginPath(); moveTo(x0, y0); lineTo(x1, y1); stroke() */
    | Line(x0: real, y0: real, x1: real, y1: real)
    /** beginPath() */
    | BeginPath
    /** arc(cx, cy, radius, startQuarter * pi / 2, endQuarter * pi / 2, false) */
    | Arc(cx: real, cy: real, radius: real, startQuarter: nat, endQuarter: nat)
    /** stroke() */
    | Stroke

  /** Angle, in quarter turns, that one command sweeps (zero unless an arc). */
  function Span(c: Command): int
  {
    if c.Arc? then c.endQuarter - c.startQuarter else 0
  }

  /** Total angle, in quarter turns, swept by the arcs of a command list. */
  function Sweep(cmds: seq<Command>): int
  {
    if cmds == [] then 0 else Sweep(cmds[..|cmds| - 1]) + Span(cmds[|cmds| - 1])
  }
}
