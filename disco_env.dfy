/** The two things the driver observes from outside: the request manager, reached through
    a client object shared by the driver and its monitors, and the wall clock. */
module DiscoEnv {
  import opened DiscoTypes

  /** A client of the request manager. The manager's answer to a call is a function of the
      whole call history, the call itself included; `log` is that history. */
  class Client {
    const respond: seq<Request> -> Option<Reply>
    var log: seq<Request>

    constructor (respond: seq<Request> -> Option<Reply>)
      ensures this.respond == respond && log == []
    {
      this.respond := respond;
      log := [];
    }

    /** Issues one request and returns the manager's reply (None when it returns nothing). */
    method Call(request: Request) returns (reply: Option<Reply>)
      modifies this
      ensures log == old(log) + [request]
      ensures reply == respond(log)
    {
      log := log + [request];
      reply := respond(log);
    }
  }

  /** `int(time.time())`: the k-th reading taken returns `readings(k)`. */
  class Clock {
    const readings: nat -> int
    var taken: nat

    constructor (readings: nat -> int)
      ensures this.readings == readings && taken == 0
    {
      this.readings := readings;
      taken := 0;
    }

    method Now() returns (t: int)
      modifies this
      ensures taken == old(taken) + 1
      ensures t == readings(old(taken))
    {
      t := readings(taken);
      taken := taken + 1;
    }
  }
}
