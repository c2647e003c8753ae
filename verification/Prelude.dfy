/** Small vocabulary shared by every module: options, duplicate-free lists and
    the decimal rendering that port-suffixed resource names are built with. */
module Prelude {
  datatype Option<+T> = None | Some(value: T)

  predicate NoDup<T(==)>(s: seq<T>) {
    forall i, j :: 0 <= i < j < |s| ==> s[i] != s[j]
  }

  function ToSet<T>(s: seq<T>): set<T> {
    set x | x in s
  }

  lemma {:induction false} SubsetSize<T>(a: set<T>, b: set<T>)
    requires a <= b
    ensures |a| <= |b| && (|a| == |b| ==> a == b)
  {
    if a != {} {
      var x :| x in a;
      SubsetSize(a - {x}, b - {x});
      assert a == a - {x} + {x} && b == b - {x} + {x};
    }
  }

  function DecimalNat(n: nat): (s: string)
    ensures |s| > 0 && '0' <= s[0] <= '9'
  {
    var digit := ['0' + (n % 10) as char];
    if n < 10 then digit else DecimalNat(n / 10) + digit
  }

  /** The "%d" rendering of an integer. */
  function Decimal(n: int): string {
    if n < 0 then "-" + DecimalNat(-n) else DecimalNat(n)
  }

  function ParseNat(s: string): int {
    if s == "" then 0 else 10 * ParseNat(s[..|s| - 1]) + (s[|s| - 1] as int - '0' as int)
  }

  function Parse(s: string): int {
    if s != "" && s[0] == '-' then -ParseNat(s[1..]) else ParseNat(s)
  }

  lemma {:induction false} ParseNatInverts(n: nat)
    ensures ParseNat(DecimalNat(n)) == n
  {
    if n >= 10 {
      ParseNatInverts(n / 10);
      var s := DecimalNat(n);
      assert s[..|s| - 1] == DecimalNat(n / 10);
    }
  }

  /** Decimal rendering round-trips, so two ports never share a name suffix. */
  lemma ParseInverts(n: int)
    ensures Parse(Decimal(n)) == n
  {
    if n < 0 {
      assert Decimal(n)[1..] == DecimalNat(-n);
      ParseNatInverts(-n);
    } else {
      ParseNatInverts(n);
    }
  }
}
