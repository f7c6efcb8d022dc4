/** The write gate: ordinary permits are exclusive of each other, exclusive work drains and fences
    them, and a revision changes whenever a permit that may have written ends. */
module WriteGate {

  /** A preview token; the nonce names the process. */
  datatype Token = Token(nonce: nat, revision: nat)

  datatype Gate = Gate(exclusive: bool, shuttingDown: bool, writers: nat, revision: nat, nonce: nat)

  datatype Admission = Admitted | Waiting | Busy

  function TokenOf(g: Gate): Token {
    Token(g.nonce, g.revision)
  }

  function WriteAdmission(g: Gate): Admission {
    if g.exclusive || g.shuttingDown then Busy else if g.writers == 0 then Admitted else Waiting
  }

  function ExclusiveAdmission(g: Gate): Admission {
    if g.exclusive || g.shuttingDown then Busy else if g.writers == 0 then Admitted else Waiting
  }

  function AfterAdmission(g: Gate): Gate {
    if WriteAdmission(g).Admitted? then g.(writers := 1) else g
  }

  /** Exclusive work fences new writers at once, even while it waits for the running one. */
  function AfterExclusive(g: Gate): Gate {
    if ExclusiveAdmission(g).Busy? then g else g.(exclusive := true)
  }

  function Released(g: Gate, written: bool): Gate
    requires g.writers > 0
  {
    g.(writers := g.writers - 1, revision := if written then g.revision + 1 else g.revision)
  }

  class WriteCoordinator {
    var exclusive: bool
    var shuttingDown: bool
    var writers: nat
    var revision: nat
    const nonce: nat

    function View(): Gate
      reads this
    {
      Gate(exclusive, shuttingDown, writers, revision, nonce)
    }

    constructor (n: nat)
      ensures View() == Gate(false, false, 0, 0, n)
    {
      exclusive, shuttingDown, writers, revision, nonce := false, false, 0, 0, n;
    }

    /** One turn of the admission loop; a waiting writer tries again when woken. */
    method AcquireWrite() returns (a: Admission)
      modifies this`writers
      ensures a == WriteAdmission(old(View())) && View() == AfterAdmission(old(View()))
    {
      if exclusive || shuttingDown {
        return Busy;
      }
      if writers == 0 {
        writers := 1;
        return Admitted;
      }
      a := Waiting;
    }

    method ReleaseWrite()
      requires writers > 0
      modifies this
      ensures View() == Released(old(View()), true)
    {
      revision := revision + 1;
      writers := writers - 1;
    }

    method ReleasePreviewRead()
      requires writers > 0
      modifies this
      ensures View() == Released(old(View()), false)
    {
      writers := writers - 1;
    }

    /** The version a reader certifies: after its own maintenance and before any later write. */
    method ReleaseSnapshotVersion(written: bool) returns (version: Token)
      requires writers > 0
      modifies this
      ensures View() == Released(old(View()), written) && version == TokenOf(View())
    {
      if written {
        revision := revision + 1;
      }
      writers := writers - 1;
      version := Token(nonce, revision);
    }

    method PreviewToken() returns (t: Token)
      ensures t == TokenOf(View())
    {
      t := Token(nonce, revision);
    }

    method AcquireExclusive() returns (a: Admission)
      modifies this`exclusive
      ensures a == ExclusiveAdmission(old(View())) && View() == AfterExclusive(old(View()))
    {
      if exclusive || shuttingDown {
        return Busy;
      }
      exclusive := true;
      a := if writers > 0 then Waiting else Admitted;
    }

    method ReleaseExclusive()
      modifies this
      ensures View() == old(View()).(exclusive := false, revision := old(revision) + 1)
    {
      revision := revision + 1;
      exclusive := false;
    }

    method QuiesceWritesForShutdown()
      modifies this`shuttingDown
      ensures View() == old(View()).(shuttingDown := true)
    {
      shuttingDown := true;
    }
  }
}
