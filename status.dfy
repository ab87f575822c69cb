/**
 * The request-in-progress counter of the status bar (src/app/status.rs)
 * and the spinner flag it keeps in step (src/app/spinner_ticking_port.rs).
 * The spinner port's mutex and its polling are not modelled; its state is
 * the one boolean.
 */
module Status {
  import Connection

  class SpinnerTickingPort {
    var ticking: bool

    constructor ()
      ensures !ticking
    {
      ticking := false;
    }

    method SetTicking(t: bool)
      modifies this
      ensures ticking == t
    {
      ticking := t;
    }
  }

  class AppStatus {
    var requestsInProgress: int
    var doing: string
    var queryProcessing: bool

    /** The counter is never negative and processing means some request is in progress. */
    predicate Valid()
      reads this
    {
      requestsInProgress >= 0 && queryProcessing == (requestsInProgress > 0)
    }

    /** `Default`: nothing in progress. */
    constructor Default()
      ensures requestsInProgress == 0 && doing == "" && !queryProcessing
      ensures Valid()
    {
      requestsInProgress := 0;
      doing := "";
      queryProcessing := false;
    }

    /** `push_db_request`: one more request in progress, processing on, the spinner ticking. */
    method PushDbRequest(request: Connection.DbRequest, spinner: SpinnerTickingPort)
      modifies this, spinner
      ensures requestsInProgress == old(requestsInProgress) + 1
      ensures queryProcessing && doing == old(doing)
      ensures spinner.ticking
      ensures old(Valid()) ==> Valid()
    {
      requestsInProgress := requestsInProgress + 1;
      queryProcessing := true;
      spinner.SetTicking(true);
    }

    /**
     * `pop_db_request`: one request fewer, clamped at zero; processing stops
     * when none is left, and the spinner follows the processing flag.
     */
    method PopDbRequest(spinner: SpinnerTickingPort)
      modifies this, spinner
      ensures requestsInProgress == if old(requestsInProgress) <= 0 then 0 else old(requestsInProgress) - 1
      ensures queryProcessing == (old(queryProcessing) && requestsInProgress != 0)
      ensures doing == old(doing)
      ensures spinner.ticking == queryProcessing
      ensures requestsInProgress >= 0
      ensures old(Valid()) ==> Valid()
    {
      requestsInProgress := requestsInProgress - 1;
      if requestsInProgress < 0 {
        requestsInProgress := 0;
      }
      if requestsInProgress == 0 {
        queryProcessing := false;
      }
      spinner.SetTicking(queryProcessing);
    }
  }

  /** A pop with nothing in progress leaves the counter at zero and processing off. */
  method PopAtZero(spinner: SpinnerTickingPort) returns (status: AppStatus)
    modifies spinner
    ensures status.requestsInProgress == 0 && !status.queryProcessing && !spinner.ticking
  {
    status := new AppStatus.Default();
    status.PopDbRequest(spinner);
  }
}
