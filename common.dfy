/** Values shared by every part of the model: optional request fields,
    environment-variable parses, clock readings and the outcomes of the
    external providers and of ffmpeg, which the model takes as inputs. */
module Common {

  datatype Option<+T> = None | Some(value: T)

  /** Milliseconds since the epoch, as `Date.now()` or `new Date()` reads them. */
  type Time = nat

  type Bytes = seq<bv8>

  /** JavaScript truthiness of an optional string field of a request body:
      `undefined`, `null` and `""` are falsy. */
  predicate Truthy(f: Option<string>)
  {
    f.Some? && f.value != ""
  }

  /** What `parseInt(process.env.X)` sees: the variable is unset (or empty),
      holds text that is not a number (NaN), or parses to an integer. */
  datatype EnvInt = Unset | NotANumber | Parsed(n: int)

  /** The result of one generation stage: the provider returned bytes and
      they were written, the provider call failed (or returned unusable data,
      or a non-ok HTTP status), or the bytes could not be written to disk. */
  datatype StageOutcome =
    | Generated(data: Bytes)
    | ProviderFailed(message: string)
    | WriteFailed(message: string)

  /** The end of an ffmpeg child process started with `spawn`: it could not
      be launched (an 'error' event), it exited with a code, or it was killed
      by a signal (exit code null). A failed run may leave a partial output. */
  datatype SpawnRun =
    | LaunchFailed(message: string)
    | Exited(code: int, partialOutput: bool)
    | Killed(partialOutput: bool)

  /** The callback of an ffmpeg command run with `exec`: the command
      succeeded, or `error` was set (launch failure or non-zero exit). */
  datatype ExecRun = ExecSucceeded | ExecFailed(message: string, partialOutput: bool)

  /** `parseInt(process.env.X, 10) || fallback`: an unset variable, text
      that is not a number and zero all give the fallback. */
  function IntOr(env: EnvInt, fallback: int): int
  {
    if env.Parsed? && env.n != 0 then env.n else fallback
  }

  function Max(a: int, b: int): int { if a < b then b else a }

  /** Concatenation is associative; stated once so that the proofs that
      regroup a concatenation do not search for it. */
  lemma ConcatAssoc<T>(a: seq<T>, b: seq<T>, c: seq<T>)
    ensures (a + b) + c == a + (b + c)
  {
  }
}
