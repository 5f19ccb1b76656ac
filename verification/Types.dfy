/** The kernel's basic types and constants (xinu_types.h, Chapter5/process.h, Chapter7/semaphore.h). */
module Types {

  const INT32_MIN := -0x8000_0000
  const INT32_MAX := 0x7FFF_FFFF

  /** A C `int32`: every assignment to such a location is an obligation that no overflow happens. */
  type int32 = x: int | INT32_MIN <= x <= INT32_MAX

  const EMPTY := -1
  const MAXKEY: int32 := 0x7FFF_FFFF
  const MINKEY: int32 := -0x8000_0000
  const QUANTUM := 2
  const NULLPROC := 0

  datatype Status = OK | SYSERR

  datatype PrState = PR_FREE | PR_CURR | PR_READY | PR_RECV | PR_SLEEP | PR_SUSP | PR_WAIT | PR_RECTIM

  /** The fields of a process table entry that the scheduler reads; priorities are C `int16`s. */
  type Prio = x: int | -0x8000 <= x <= 0x7FFF

  datatype Proc = Proc(prstate: PrState, prprio: Prio, prsem: int, prmsg: int, prhasmsg: bool)

  datatype SState = S_FREE | S_USED

  datatype Sentry = Sentry(sstate: SState, scount: int, squeue: int)

  datatype Option<+T> = None | Some(value: T)
}
