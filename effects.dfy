/** The observable interface between the controller and the running system:
    every file write, timed suspension and output-line set is recorded as an
    event in a trace, in the order it is attempted. */
module Effects {

  datatype Option<T> = None | Some(value: T)

  /** One interaction with the kernel or the timer. */
  datatype Effect =
    | Write(path: string, token: string)  // write `token` to the file at `path`
    | Sleep(ms: nat)                      // suspend the task for `ms` milliseconds
    | SetLine(idx: nat, level: nat)       // set the controller's enable line `idx` to `level`

  /** Errors as the caller sees them: an I/O error with an optional context
      label, or a plain error message. */
  datatype Error = Io(context: Option<string>) | Message(text: string)

  /** Outcome of an operation returning `Result<()>`; `Panicked(i)` is the
      task aborting on an out-of-range index `i`. */
  datatype Status = Done | Failed(error: Error) | Panicked(index: nat)

  datatype Result<T> = Ok(value: T) | Err(error: Error)

  /** The kernel and timer as the controller sees them. `faulty` holds the
      trace positions at which an attempted write or line set fails. */
  class Kernel {
    var trace: seq<Effect>
    const faulty: set<nat>

    constructor (faulty: set<nat>)
      ensures trace == [] && this.faulty == faulty
    {
      trace := [];
      this.faulty := faulty;
    }

    method WriteFile(path: string, token: string) returns (ok: bool)
      modifies this
      ensures trace == old(trace) + [Write(path, token)]
      ensures ok == (|old(trace)| !in faulty)
    {
      ok := |trace| !in faulty;
      trace := trace + [Write(path, token)];
    }

    method Delay(ms: nat)
      modifies this
      ensures trace == old(trace) + [Sleep(ms)]
    {
      trace := trace + [Sleep(ms)];
    }

    method SetValues(idx: nat, level: nat) returns (ok: bool)
      modifies this
      ensures trace == old(trace) + [SetLine(idx, level)]
      ensures ok == (|old(trace)| !in faulty)
    {
      ok := |trace| !in faulty;
      trace := trace + [SetLine(idx, level)];
    }
  }
}
