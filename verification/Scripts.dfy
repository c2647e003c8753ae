/** What a teardown asks of the cloud, as a function of nothing but its inputs and
    the answers so far: a script is the next question together with what follows
    each possible answer.  A log that runs a script to its end is determined by the
    answers in it. */
module Scripts {
  import opened Prelude
  import opened CloudApi

  datatype Query = AskGet(key: Key) | AskList(kind: Kind, selector: Labels) | AskDelete(gone: Key)

  datatype Reply = Reply(error: Option<Error>, names: seq<string>)

  /** What a part of a teardown concludes: something went wrong, something is left. */
  datatype Verdict = Verdict(broken: bool, pending: bool)

  datatype Script = Finish(verdict: Verdict) | Ask(query: Query, next: Reply -> Script) | Astray

  /** A teardown neither creates nor patches. */
  function QueryOf(c: Call): Option<Query> {
    match c.op
    case GetOp(k, _) => Some(AskGet(k))
    case ListOp(kind, sel, _) => Some(AskList(kind, sel))
    case DeleteOp(k) => Some(AskDelete(k))
    case CreateOp(_, _) => None
    case PatchOp(_, _) => None
  }

  function ReplyOf(c: Call): Reply {
    Reply(c.error, if c.op.ListOp? then c.op.names else if c.op.GetOp? then c.op.members else [])
  }

  ghost function Step(s: Script, c: Call): Script {
    if s.Ask? && QueryOf(c) == Some(s.query) then s.next(ReplyOf(c)) else Astray
  }

  /** What is left of a script after the calls of `log`. */
  ghost function After(s: Script, log: seq<Call>): Script {
    if log == [] then s else Step(After(s, log[..|log| - 1]), log[|log| - 1])
  }

  lemma AfterNext(s: Script, log: seq<Call>, c: Call)
    ensures After(s, log + [c]) == Step(After(s, log), c)
  {
    assert (log + [c])[..|log|] == log;
  }

  /** The calls made from log `a` to log `b` lead script `s` to `t`. */
  ghost predicate Ran(a: seq<Call>, b: seq<Call>, s: Script, t: Script) {
    a <= b && After(s, b[|a|..]) == t
  }

  lemma RanNone(a: seq<Call>, s: Script)
    ensures Ran(a, a, s, s)
  {}

  lemma RanAsk(a: seq<Call>, b: seq<Call>, c: Call, s: Script, t: Script)
    requires Ran(a, b, s, t)
    ensures Ran(a, b + [c], s, Step(t, c))
  {
    var log := (b + [c])[|a|..];
    assert log[..|log| - 1] == b[|a|..];
  }

  lemma RanFirst(a: seq<Call>, c: Call, s: Script)
    ensures Ran(a, a + [c], s, Step(s, c))
  {
    RanAsk(a, a, c, s, s);
  }

  lemma {:induction false} AfterAfter(s: Script, x: seq<Call>, y: seq<Call>)
    ensures After(s, x + y) == After(After(s, x), y)
  {
    if y == [] {
      assert x + y == x;
    } else {
      var n := |y| - 1;
      assert (x + y)[..|x + y| - 1] == x + y[..n];
      AfterAfter(s, x, y[..n]);
    }
  }

  lemma RanThen(a: seq<Call>, b: seq<Call>, c: seq<Call>, s: Script, t: Script, u: Script)
    requires Ran(a, b, s, t) && Ran(b, c, t, u)
    ensures Ran(a, c, s, u)
  {
    assert c[|a|..] == b[|a|..] + c[|b|..];
    AfterAfter(s, b[|a|..], c[|b|..]);
  }

  /** As far as both logs go, their answers are the same. */
  ghost predicate SameAnswers(x: seq<Call>, y: seq<Call>) {
    forall i | 0 <= i < |x| && i < |y| :: ReplyOf(x[i]) == ReplyOf(y[i])
  }

  /** Once nothing more is asked, or something else was done, no call leads back. */
  lemma {:induction false} StaysAstray(s: Script, log: seq<Call>, n: nat)
    requires n < |log| && !After(s, log[..n]).Ask?
    ensures After(s, log).Astray?
    decreases |log|
  {
    var m := |log| - 1;
    if n < m {
      assert log[..m][..n] == log[..n];
      StaysAstray(s, log[..m], n);
    }
  }

  lemma AsksAt(s: Script, log: seq<Call>, n: nat)
    requires n < |log| && !After(s, log).Astray?
    ensures After(s, log[..n]).Ask? && QueryOf(log[n]) == Some(After(s, log[..n]).query)
  {
    if !After(s, log[..n]).Ask? { StaysAstray(s, log, n); }
    assert log[..n + 1][..n] == log[..n] && log[..|log|] == log;
    if n + 1 < |log| && After(s, log[..n + 1]).Astray? { StaysAstray(s, log, n + 1); }
  }

  lemma {:induction false} SameSoFar(s: Script, x: seq<Call>, y: seq<Call>, n: nat)
    requires n <= |x| && n <= |y| && !After(s, x).Astray? && !After(s, y).Astray? && SameAnswers(x, y)
    ensures x[..n] == y[..n]
  {
    if n > 0 {
      SameSoFar(s, x, y, n - 1);
      AsksAt(s, x, n - 1);
      AsksAt(s, y, n - 1);
      assert QueryOf(x[n - 1]) == QueryOf(y[n - 1]) && ReplyOf(x[n - 1]) == ReplyOf(y[n - 1]);
    }
  }

  /** Two complete runs of one script that were answered alike made the same calls,
      one after the other, and came to the same conclusion. */
  lemma SameRun(s: Script, x: seq<Call>, y: seq<Call>)
    requires After(s, x).Finish? && After(s, y).Finish? && SameAnswers(x, y)
    ensures x == y
  {
    var n := if |x| <= |y| then |x| else |y|;
    SameSoFar(s, x, y, n);
    if |x| < |y| {
      assert x == y[..n];
      StaysAstray(s, y, n);
    } else if |y| < |x| {
      assert y == x[..n];
      StaysAstray(s, x, n);
    } else {
      assert x[..n] == x && y[..n] == y;
    }
  }
}
