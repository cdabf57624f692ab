/** The five credits a reservation holds, and sums of them over the runtime's tables. */
module Credits {
  datatype Dimension = Commands | Envelopes | Generations | Ingress | Outbox

  datatype Credit = Credit(commands: int, envelopes: int, generations: int, ingress: int, outbox: int) {
    function Get(d: Dimension): int {
      match d
      case Commands => commands
      case Envelopes => envelopes
      case Generations => generations
      case Ingress => ingress
      case Outbox => outbox
    }

    function Plus(o: Credit): Credit {
      Credit(commands + o.commands, envelopes + o.envelopes, generations + o.generations,
             ingress + o.ingress, outbox + o.outbox)
    }

    function Minus(o: Credit): Credit {
      Credit(commands - o.commands, envelopes - o.envelopes, generations - o.generations,
             ingress - o.ingress, outbox - o.outbox)
    }

    /** Commands and generations only: what creating or retiring a generation moves. */
    function Adjust(c: int, g: int): Credit {
      Credit(commands + c, envelopes, generations + g, ingress, outbox)
    }

    predicate Fits(limit: Credit) {
      && commands <= limit.commands && envelopes <= limit.envelopes && generations <= limit.generations
      && ingress <= limit.ingress && outbox <= limit.outbox
    }
  }

  /** A generation's lifetime costs the pool two commands and a table slot. */
  function LifetimeShare(d: Dimension): int {
    match d
    case Commands => 2
    case Generations => 1
    case _ => 0
  }

  /** Of which its own account carries the two commands. */
  function OwnShare(d: Dimension): int {
    if d == Commands then 2 else 0
  }

  const Zero := Credit(0, 0, 0, 0, 0)

  function Sum<T>(s: seq<T>, f: T -> int): int {
    if s == [] then 0 else Sum(s[..|s| - 1], f) + f(s[|s| - 1])
  }

  lemma SumAppend<T>(s: seq<T>, x: T, f: T -> int)
    ensures Sum(s + [x], f) == Sum(s, f) + f(x)
  {
    assert (s + [x])[..|s|] == s;
  }

  /** Replacing one element moves the sum by the change of that element's value. */
  lemma {:induction false} SumUpdate<T>(s: seq<T>, i: nat, x: T, f: T -> int)
    requires i < |s|
    ensures Sum(s[i := x], f) == Sum(s, f) - f(s[i]) + f(x)
  {
    var last := |s| - 1;
    if i < last {
      assert s[i := x][..last] == s[..last][i := x];
      SumUpdate(s[..last], i, x, f);
    } else {
      assert s[i := x][..last] == s[..last];
    }
  }

  lemma {:induction false} SumSame<T>(s: seq<T>, t: seq<T>, f: T -> int)
    requires |s| == |t| && forall i :: 0 <= i < |s| ==> f(s[i]) == f(t[i])
    ensures Sum(s, f) == Sum(t, f)
  {
    if s != [] {
      SumSame(s[..|s| - 1], t[..|t| - 1], f);
    }
  }

  lemma {:induction false} SumZero<T>(s: seq<T>, f: T -> int)
    requires forall x :: x in s ==> f(x) == 0
    ensures Sum(s, f) == 0
  {
    if s != [] {
      SumZero(s[..|s| - 1], f);
    }
  }

  lemma {:induction false} SumNonnegative<T>(s: seq<T>, f: T -> int)
    requires forall x :: x in s ==> f(x) >= 0
    ensures Sum(s, f) >= 0
  {
    if s != [] {
      SumNonnegative(s[..|s| - 1], f);
    }
  }

  /** Each element of a nonnegative sum is below it. */
  lemma {:induction false} SumAtLeast<T>(s: seq<T>, i: nat, f: T -> int)
    requires i < |s|
    requires forall x :: x in s ==> f(x) >= 0
    ensures f(s[i]) <= Sum(s, f)
  {
    SumNonnegative(s[..|s| - 1], f);
    if i < |s| - 1 {
      SumAtLeast(s[..|s| - 1], i, f);
    }
  }
}
