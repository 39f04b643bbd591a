/** Sets of instants between two bounds, either of which may be missing. */
module Windows {
  import opened Wrappers
  import opened Time

  datatype Window = Never | Span(from: Option<Instant>, until: Option<Instant>) {
    predicate Contains(t: Instant) {
      && Span?
      && (from.Some? ==> from.value <= t)
      && (until.Some? ==> t <= until.value)
    }
  }

  const ALWAYS := Span(None, None)

  function Later(a: Option<Instant>, b: Option<Instant>): Option<Instant> {
    if a.None? then b else if b.Some? && a.value < b.value then b else a
  }

  function Earlier(a: Option<Instant>, b: Option<Instant>): Option<Instant> {
    if a.None? then b else if b.Some? && b.value < a.value then b else a
  }

  function Meet(v: Window, w: Window): (m: Window)
    ensures forall t :: m.Contains(t) <==> v.Contains(t) && w.Contains(t)
  {
    if v.Never? || w.Never? then Never
    else Span(Later(v.from, w.from), Earlier(v.until, w.until))
  }
}
