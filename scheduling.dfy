/** The single-thread scheduled executor every post action owns, reduced to
    what the actions do with it: register a periodic auto-post task, shut
    down, and wait for running tasks to end. */
module Scheduling {
  import opened Errors
  import CheckUtil

  /** The parameters of `scheduleAtFixedRate`, in minutes. */
  datatype Schedule = Schedule(initialDelay: int, period: int)

  class Scheduler {
    /** The periodic tasks registered so far, oldest first. */
    var tasks: seq<Schedule>
    /** Whether `shutdown()` has been called. */
    var shutDown: bool
    /** The time limits passed to `awaitTermination`, oldest first. */
    var awaited: seq<int>

    constructor()
      ensures tasks == [] && !shutDown && awaited == []
    {
      tasks := [];
      shutDown := false;
      awaited := [];
    }

    method ScheduleAtFixedRate(initialDelay: int, period: int)
      modifies this
      ensures tasks == old(tasks) + [Schedule(initialDelay, period)]
      ensures shutDown == old(shutDown) && awaited == old(awaited)
    {
      tasks := tasks + [Schedule(initialDelay, period)];
    }

    method Shutdown()
      modifies this
      ensures shutDown
      ensures tasks == old(tasks) && awaited == old(awaited)
    {
      shutDown := true;
    }

    method AwaitTermination(time: int)
      modifies this
      ensures awaited == old(awaited) + [time]
      ensures tasks == old(tasks) && shutDown == old(shutDown)
    {
      awaited := awaited + [time];
    }
  }

  /** `disableAutoPost(time, unit)`: a time of 0 or less is refused with
      `message` before the scheduler is touched; otherwise the scheduler is
      shut down and then waited on for `time`. */
  method ShutdownAndWait(scheduler: Scheduler, time: int, message: string) returns (r: Outcome)
    modifies scheduler
    ensures r.Fail? <==> time <= 0
    ensures r.Fail? ==> r.error == IllegalState(message)
    ensures r.Fail? ==> unchanged(scheduler)
    ensures r.Pass? ==> scheduler.shutDown && scheduler.tasks == old(scheduler.tasks)
    ensures r.Pass? ==> scheduler.awaited == old(scheduler.awaited) + [time]
  {
    r := CheckUtil.Condition(time <= 0, message);
    if r.Fail? {
      return;
    }
    scheduler.Shutdown();
    scheduler.AwaitTermination(time);
  }
}
