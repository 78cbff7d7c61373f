/** The Go `error` values the façade returns, and the error-returning shape shared by
    every single-call method of canvas.go: make the engine call and, when the engine
    answers MagickFalse, drain the wand's diagnostic (Canvas.Error, canvas.go:210-215)
    into an error message behind a fixed prefix. */
module Failures {
  import opened Wrappers
  import opened Strconv
  import opened Magick

  datatype Error =
    | PathError(op: string, path: string, reason: string)  // *os.PathError from os.Stat
    | Errorf(message: string)                              // fmt.Errorf(...)
    | Num(cause: NumError)                                 // *strconv.NumError

  const NotExist: string := "no such file or directory"

  /** `if C.Magick...(self.wand, ...) == C.MagickFalse { return fmt.Errorf(prefix + "%s", self.Error()) }`. */
  function Checked(e: Engine, s: WandState, r: Request, prefix: string): (res: (WandState, Option<Error>))
    ensures res.1.None? <==> Step(e, s, r).1
    ensures res.1.None? ==> res.0 == Step(e, s, r).0
    ensures res.1.Some? ==> res.0 == Step(e, s, r).0.(exception := "")
                             && res.1.value == Errorf(prefix + Step(e, s, r).0.exception)
  {
    var (t, ok) := Step(e, s, r);
    if ok then (t, None) else (t.(exception := ""), Some(Errorf(prefix + t.exception)))
  }

  /** A refused call reports the engine's own diagnostic and leaves none pending, so it
      cannot leak into the next failure. */
  lemma CheckedDrains(e: Engine, s: WandState, r: Request, prefix: string)
    requires r.FlopImage? && "MagickFlopImage" in e.faults && s.image.Some?
    ensures Checked(e, s, r, prefix) == (s.(exception := ""), Some(Errorf(prefix + e.faults["MagickFlopImage"])))
  {
  }
}
