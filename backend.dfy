/** The document store and the side-effect sinks, as one object: the
    professional accounts keyed by their (lower-cased) email, and the log of
    every effect an operation issues, in order. */
module Repository {
  import opened Domain

  class Backend {
    var accounts: map<string, Professional>
    var log: seq<Effect>

    /** Each account is filed under its own email, so an email names at most one account. */
    ghost predicate Valid()
      reads this
    {
      forall e :: e in accounts ==> accounts[e].email == e
    }

    constructor (initial: map<string, Professional>)
      requires forall e :: e in initial ==> initial[e].email == e
      ensures Valid()
      ensures accounts == initial && log == []
    {
      accounts := initial;
      log := [];
    }
  }
}
