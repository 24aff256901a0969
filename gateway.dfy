/**
 * DatabaseManager: the one connection every manager shares, and
 * execute_query, which runs a statement, commits it unless its text starts
 * with "SELECT", returns its rows when its stripped, upper-cased text starts
 * with "SELECT", and swallows every driver error into a None result.
 *
 * Whether the driver raises on a given call depends on a database this model
 * cannot see. It is supplied from outside as a script of verdicts, `faults`,
 * one consumed per call: `true` means the driver raises on that call, and an
 * exhausted script means no further errors.
 */
module Gateway {
  import opened SqlText
  import opened Store

  /**
   * What the connection sees (`work`), what has been committed (`durable`),
   * and the driver's verdicts for the coming calls.
   */
  datatype Db = Db(work: Tables, durable: Tables, faults: seq<bool>)

  /** The driver raises on the next call. */
  predicate Faulted(faults: seq<bool>) {
    |faults| > 0 && faults[0]
  }

  /** The verdicts left after one call. */
  function Rest(faults: seq<bool>): seq<bool> {
    if faults == [] then [] else faults[1..]
  }

  /** The verdicts left after `n` calls. */
  function Drop(faults: seq<bool>, n: nat): seq<bool> {
    if n == 0 then faults else Drop(Rest(faults), n - 1)
  }

  /**
   * One call of execute_query: the new connection state and the value it
   * returns. A driver error leaves the tables as they were (nothing ran,
   * nothing was committed) and yields None.
   */
  function Execute(db: Db, stmt: Statement): (Db, Option<seq<Row>>) {
    if Faulted(db.faults) then (db.(faults := Rest(db.faults)), None)
    else
      var work := Apply(db.work, stmt.effect);
      (Db(work, if Commits(stmt.text) then work else db.durable, Rest(db.faults)),
       if Fetches(stmt.text) then Answer(db.work, stmt.effect) else None)
  }

  /**
   * A statement that only reads and whose text is fetched but not committed
   * leaves the tables alone and returns its rows, or None after a driver error.
   */
  lemma ExecuteRead(db: Db, stmt: Statement)
    requires IsRead(stmt.effect) && Fetches(stmt.text) && !Commits(stmt.text)
    ensures Execute(db, stmt)
         == (db.(faults := Rest(db.faults)), if Faulted(db.faults) then None else Answer(db.work, stmt.effect))
  {
  }

  /**
   * A statement whose text is committed but not fetched returns None; unless
   * the driver raises, its effect is applied and committed at once.
   */
  lemma ExecuteWrite(db: Db, stmt: Statement)
    requires Commits(stmt.text) && !Fetches(stmt.text)
    ensures Execute(db, stmt).1 == None
    ensures Execute(db, stmt).0
         == if Faulted(db.faults) then db.(faults := Rest(db.faults))
            else var work := Apply(db.work, stmt.effect); Db(work, work, Rest(db.faults))
  {
  }

  /** Runs the statements in order, discarding what each returns. */
  function RunAll(db: Db, stmts: seq<Statement>): Db
    decreases |stmts|
  {
    if stmts == [] then db else RunAll(Execute(db, stmts[0]).0, stmts[1..])
  }

  /** The effects of the statements on which the driver does not raise, in order. */
  function Survivors(stmts: seq<Statement>, faults: seq<bool>): seq<Effect>
    decreases |stmts|
  {
    if stmts == [] then []
    else (if Faulted(faults) then [] else [stmts[0].effect]) + Survivors(stmts[1..], Rest(faults))
  }

  function Effects(stmts: seq<Statement>): seq<Effect> {
    seq(|stmts|, k requires 0 <= k < |stmts| => stmts[k].effect)
  }

  lemma {:induction false} ApplyAllAppend(t: Tables, a: seq<Effect>, b: seq<Effect>)
    ensures ApplyAll(t, a + b) == ApplyAll(ApplyAll(t, a), b)
    decreases |a|
  {
    if a == [] {
      assert a + b == b;
    } else {
      assert (a + b)[0] == a[0];
      assert (a + b)[1..] == a[1..] + b;
      ApplyAllAppend(Apply(t, a[0]), a[1..], b);
    }
  }

  /**
   * Every statement reaches the driver (each consumes one verdict), and the
   * tables end up as if exactly the statements the driver accepted had run,
   * in order: a failing statement is skipped and does not stop later ones.
   */
  lemma {:induction false} RunAllAttemptsEveryStatement(db: Db, stmts: seq<Statement>)
    ensures RunAll(db, stmts).faults == Drop(db.faults, |stmts|)
    ensures RunAll(db, stmts).work == ApplyAll(db.work, Survivors(stmts, db.faults))
    decreases |stmts|
  {
    if stmts != [] {
      var next := Execute(db, stmts[0]).0;
      RunAllAttemptsEveryStatement(next, stmts[1..]);
      var head := if Faulted(db.faults) then [] else [stmts[0].effect];
      ApplyAllAppend(db.work, head, Survivors(stmts[1..], Rest(db.faults)));
    }
  }

  /** With no driver errors, every statement takes effect. */
  lemma {:induction false} NoFaultSkipsNothing(stmts: seq<Statement>)
    ensures Survivors(stmts, []) == Effects(stmts)
    decreases |stmts|
  {
    if stmts != [] {
      NoFaultSkipsNothing(stmts[1..]);
      assert Effects(stmts) == [stmts[0].effect] + Effects(stmts[1..]);
    }
  }

  /**
   * When each statement's text commits or the statement only reads, the
   * committed tables keep up with what the connection sees.
   */
  lemma {:induction false} RunAllKeepsCommitted(db: Db, stmts: seq<Statement>)
    requires db.durable == db.work
    requires forall k :: 0 <= k < |stmts| ==> Commits(stmts[k].text) || IsRead(stmts[k].effect)
    ensures RunAll(db, stmts).durable == RunAll(db, stmts).work
    decreases |stmts|
  {
    if stmts != [] {
      var next := Execute(db, stmts[0]).0;
      assert next.durable == next.work;
      forall k | 0 <= k < |stmts[1..]|
        ensures Commits(stmts[1..][k].text) || IsRead(stmts[1..][k].effect)
      {
        assert stmts[1..][k] == stmts[k + 1];
      }
      RunAllKeepsCommitted(next, stmts[1..]);
    }
  }

  /** The shared connection wrapper. */
  class DatabaseManager {
    var work: Tables
    var durable: Tables
    var faults: seq<bool>

    /** A connection to a database that holds `contents`, all of it committed. */
    constructor (contents: Tables, faults: seq<bool>)
      ensures State() == Db(contents, contents, faults)
    {
      work := contents;
      durable := contents;
      this.faults := faults;
    }

    function State(): Db
      reads this
    {
      Db(work, durable, faults)
    }

    method ExecuteQuery(stmt: Statement) returns (result: Option<seq<Row>>)
      modifies this
      ensures (State(), result) == Execute(old(State()), stmt)
    {
      var failed := Faulted(faults);
      faults := Rest(faults);
      if failed {
        // The driver raised: the error is reported and None falls out.
        return None;
      }
      var before := work;
      work := Apply(work, stmt.effect);
      if !StartsWith(stmt.text, "SELECT") {
        durable := work;
      }
      if StartsWith(Upper(Strip(stmt.text)), "SELECT") {
        return Answer(before, stmt.effect);
      }
      return None;
    }
  }
}
