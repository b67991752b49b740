/** What becomes of the changes of a client over many sessions, some of which
    end before the package is delivered. */
module OutgoingChanges {
  import opened Wrappers

  // A session that finds no package packs what was logged since the last one was made and moves the
  // date on. Dates are counts of logged changes: the query gives the changes after the date, and none
  // is logged before the clock is read.

  /** The changes of a package, by their numbers in the log. */
  datatype Range = Range(from: nat, to: nat)

  /** changes were logged so far; since is sync.prevDate; delivered are the changes whose package
      the server has pushed. */
  datatype Client = Client(changes: nat, since: nat, package: Option<Range>, delivered: set<nat>)

  datatype Event = Log | Create | Deliver | PackageSent | Complete(cleaned: bool)

  predicate InPackage(c: Client, i: nat) {
    c.package.Some? && c.package.value.from <= i < c.package.value.to
  }

  /** CreateOutgoingPackage leaves a package that is there alone, and the date with it; a session
      ends with the directories cleaned or not. */
  function Step(c: Client, e: Event): Client {
    match e
    case Log => c.(changes := c.changes + 1)
    case Create => if c.package.Some? then c else c.(since := c.changes, package := Some(Range(c.since, c.changes)))
    case Deliver => if c.package.Some? then c.(delivered := c.delivered + set i: nat | i < c.package.value.to && InPackage(c, i)) else c
    case PackageSent => c.(package := None)
    case Complete(cleaned) => if cleaned then c.(package := None) else c
  }

  function Run(c: Client, es: seq<Event>): Client {
    if es == [] then c else Step(Run(c, es[..|es| - 1]), es[|es| - 1])
  }

  const START := Client(0, 0, None, {})

  predicate Valid(c: Client) {
    && c.since <= c.changes
    && (c.package.Some? ==> c.package.value.from <= c.package.value.to == c.since)
    && forall i | i in c.delivered :: i < c.since
  }

  lemma {:induction false} RunValid(c: Client, es: seq<Event>)
    requires Valid(c)
    ensures Valid(Run(c, es))
  {
    if es != [] {
      RunValid(c, es[..|es| - 1]);
    }
  }

  /** A change that was packed and whose package is gone is never packed or delivered again. */
  lemma {:induction false} GoneForGood(c: Client, es: seq<Event>, i: nat)
    requires Valid(c) && i < c.since && !InPackage(c, i)
    ensures var r := Run(c, es); i < r.since && !InPackage(r, i) && (i in r.delivered <==> i in c.delivered)
  {
    if es != [] {
      GoneForGood(c, es[..|es| - 1], i);
      RunValid(c, es[..|es| - 1]);
    }
  }

  /** In some continuation the change is at the server. */
  ghost predicate CanArrive(c: Client, i: nat) {
    exists es :: i in Run(c, es).delivered
  }

  /** At the end of a session, after every run: a change of the package is delivered, then or at
      some later time, if and only if it was delivered before or the directories are not cleaned. */
  lemma ArrivesExactly(before: seq<Event>, cleaned: bool, i: nat)
    requires InPackage(Run(START, before), i)
    ensures CanArrive(Step(Run(START, before), Complete(cleaned)), i) <==> i in Run(START, before).delivered || !cleaned
  {
    var c := Run(START, before);
    RunValid(START, before);
    var d := Step(c, Complete(cleaned));
    assert Run(d, []) == d;
    if CanArrive(d, i) && cleaned {
      var es :| i in Run(d, es).delivered;
      GoneForGood(d, es, i);
    }
    if !cleaned {
      assert [Deliver][..0] == [];
      assert i in Run(d, [Deliver]).delivered;
    }
  }
}
