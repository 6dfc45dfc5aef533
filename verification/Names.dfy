/** Session list names: sessions that share an application id are numbered. */
module Names {
  import opened Domain

  /** How often an id occurs. */
  function Count(ids: seq<string>, id: string): nat {
    if ids == [] then 0
    else Count(ids[..|ids| - 1], id) + if ids[|ids| - 1] == id then 1 else 0
  }

  /** How often an id occurs among the first i entries. */
  function CountUpTo(ids: seq<string>, i: nat, id: string): nat
    requires i <= |ids|
  {
    Count(ids[..i], id)
  }

  /** The rank of entry i among the entries with its id, starting at one. */
  function Rank(ids: seq<string>, i: nat): nat
    requires i < |ids|
  {
    CountUpTo(ids, i + 1, ids[i])
  }

  function Digit(d: nat): char
    requires d < 10
  {
    "0123456789"[d]
  }

  function Decimal(n: nat): string {
    if n < 10 then [Digit(n)] else Decimal(n / 10) + [Digit(n % 10)]
  }

  function DigitValue(c: char): int {
    c as int - '0' as int
  }

  function Parse(t: string): int {
    if t == [] then 0 else 10 * Parse(t[..|t| - 1]) + DigitValue(t[|t| - 1])
  }

  lemma {:induction false} ParseDecimal(n: nat)
    ensures Parse(Decimal(n)) == n
  {
    var d := n % 10;
    assert DigitValue(Digit(d)) == d;
    if n < 10 {
      assert Decimal(n)[..0] == [];
    } else {
      ParseDecimal(n / 10);
      assert Decimal(n)[..|Decimal(n)| - 1] == Decimal(n / 10);
    }
  }

  function Numbered(name: string, n: nat): string {
    name + " (" + Decimal(n) + ")"
  }

  predicate IsDigit(c: char) {
    '0' <= c <= '9'
  }

  lemma {:induction false} DecimalIsDigits(n: nat)
    ensures |Decimal(n)| >= 1 && forall k | 0 <= k < |Decimal(n)| :: IsDigit(Decimal(n)[k])
  {
    assert IsDigit(Digit(n % 10));
    if n >= 10 {
      DecimalIsDigits(n / 10);
    }
  }

  /** A numbered name says which name it was and which number: the digits end at the last bracket. */
  lemma NumberedIsInjective(a: string, m: nat, b: string, n: nat)
    ensures Numbered(a, m) == Numbered(b, n) <==> a == b && m == n
  {
    if Numbered(a, m) == Numbered(b, n) {
      if |Decimal(m)| == |Decimal(n)| {
        assert Numbered(a, m)[..|a|] == a && Numbered(b, n)[..|b|] == b;
        assert Numbered(a, m)[|a| + 2..|Numbered(a, m)| - 1] == Decimal(m);
        assert Numbered(b, n)[|b| + 2..|Numbered(b, n)| - 1] == Decimal(n);
        ParseDecimal(m);
        ParseDecimal(n);
      } else if |Decimal(m)| < |Decimal(n)| {
        LongerNumberDiffers(a, m, b, n);
      } else {
        LongerNumberDiffers(b, n, a, m);
      }
    }
  }

  lemma LongerNumberDiffers(a: string, m: nat, b: string, n: nat)
    requires |Decimal(m)| < |Decimal(n)|
    ensures Numbered(a, m) != Numbered(b, n)
  {
    DecimalIsDigits(n);
    var x, y, k := Numbered(a, m), Numbered(b, n), |a| + 1;
    if |x| == |y| {
      assert x[k] == '(' && y[k] == Decimal(n)[k - |b| - 2];
    }
  }

  /** The entry the session list must show at position i. */
  function Entry(ids: seq<string>, friendly: string -> string, i: nat): SessionInfo
    requires i < |ids|
  {
    var name := friendly(ids[i]);
    SessionInfo(ids[i], if Count(ids, ids[i]) > 1 then Numbered(name, Rank(ids, i)) else name, ids[i])
  }

  function Entries(ids: seq<string>, friendly: string -> string): (r: seq<SessionInfo>) {
    seq(|ids|, i requires 0 <= i < |ids| => Entry(ids, friendly, i))
  }

  /** Go's map lookup: an absent key reads as zero. */
  function Tally(m: map<string, nat>, id: string): nat {
    if id in m then m[id] else 0
  }

  /** The first loop of enumerateSessions: how often each application occurs. */
  method CountIds(ids: seq<string>) returns (counts: map<string, nat>)
    ensures forall id :: Tally(counts, id) == Count(ids, id)
  {
    counts := map[];
    for i := 0 to |ids|
      invariant forall id :: Tally(counts, id) == CountUpTo(ids, i, id)
    {
      CountNext(ids, i);
      ghost var before := counts;
      counts := counts[ids[i] := Tally(counts, ids[i]) + 1];
      forall id ensures Tally(counts, id) == CountUpTo(ids, i + 1, id) {
        assert Tally(before, id) == CountUpTo(ids, i, id);
      }
    }
    assert ids[..|ids|] == ids;
  }

  /** The second loop: number the entries of the applications that occur more than once. */
  method Disambiguate(ids: seq<string>, friendly: string -> string) returns (sessions: seq<SessionInfo>)
    ensures sessions == Entries(ids, friendly)
  {
    var counts := CountIds(ids);
    var indices: map<string, nat> := map[];
    sessions := [];
    for i := 0 to |ids|
      invariant |sessions| == i
      invariant forall k | 0 <= k < i :: sessions[k] == Entry(ids, friendly, k)
      invariant forall id :: Count(ids, id) > 1 ==> Tally(indices, id) == CountUpTo(ids, i, id)
    {
      CountNext(ids, i);
      CountEntry(ids, i);
      var appID := ids[i];
      var name := friendly(appID);
      if Tally(counts, appID) > 1 {
        indices := indices[appID := Tally(indices, appID) + 1];
        name := Numbered(name, Tally(indices, appID));
        assert Tally(indices, appID) == Rank(ids, i);
      }
      sessions := sessions + [SessionInfo(appID, name, appID)];
    }
  }

  lemma CountNext(ids: seq<string>, i: nat)
    requires i < |ids|
    ensures forall id :: CountUpTo(ids, i + 1, id) == CountUpTo(ids, i, id) + if ids[i] == id then 1 else 0
  {
    assert ids[..i + 1][..i] == ids[..i];
  }

  lemma {:induction false} CountPrefix(ids: seq<string>, i: nat, id: string)
    requires i <= |ids|
    ensures CountUpTo(ids, i, id) <= Count(ids, id)
    decreases |ids|
  {
    if i < |ids| {
      var front := ids[..|ids| - 1];
      assert front[..i] == ids[..i];
      CountPrefix(front, i, id);
    } else {
      assert ids[..i] == ids;
    }
  }

  /** Among entries with one id the ranks grow strictly. */
  lemma RanksGrow(ids: seq<string>, i: nat, j: nat)
    requires i < j < |ids| && ids[i] == ids[j]
    ensures 1 <= Rank(ids, i) < Rank(ids, j) <= Count(ids, ids[i])
  {
    RanksOrdered(ids, i, j);
    RankAtMost(ids, j);
  }

  lemma RanksOrdered(ids: seq<string>, i: nat, j: nat)
    requires i < j < |ids| && ids[i] == ids[j]
    ensures 1 <= Rank(ids, i) < Rank(ids, j)
  {
    CountEntry(ids, i);
    CountEntry(ids, j);
    CountGrows(ids, i + 1, j, ids[i]);
  }

  lemma RankAtMost(ids: seq<string>, j: nat)
    requires j < |ids|
    ensures Rank(ids, j) <= Count(ids, ids[j])
  {
    CountPrefix(ids, j + 1, ids[j]);
  }

  lemma CountEntry(ids: seq<string>, i: nat)
    requires i < |ids|
    ensures Rank(ids, i) == CountUpTo(ids, i, ids[i]) + 1
  {
    assert ids[..i + 1][..i] == ids[..i];
  }

  lemma CountGrows(ids: seq<string>, i: nat, j: nat, id: string)
    requires i <= j <= |ids|
    ensures CountUpTo(ids, i, id) <= CountUpTo(ids, j, id)
  {
    assert ids[..j][..i] == ids[..i];
    CountPrefix(ids[..j], i, id);
  }

  /** Every number from one to the count is given to exactly one entry. */
  lemma {:induction false} RankIsTaken(ids: seq<string>, id: string, r: nat) returns (i: nat)
    requires 1 <= r <= Count(ids, id)
    ensures i < |ids| && ids[i] == id && Rank(ids, i) == r
    ensures forall j: nat | j < |ids| && ids[j] == id && Rank(ids, j) == r :: j == i
    decreases |ids|
  {
    var last := |ids| - 1;
    var front := ids[..last];
    if r <= Count(front, id) {
      i := RankIsTaken(front, id, r);
      assert ids[..i + 1] == front[..i + 1];
    } else {
      i := last;
      assert ids[..i + 1] == ids;
    }
    forall j: nat | j < |ids| && ids[j] == id && Rank(ids, j) == r ensures j == i {
      if j < i { RanksGrow(ids, j, i); }
      if i < j { RanksGrow(ids, i, j); }
    }
  }

  /** Entries that share an application id get pairwise different names. */
  lemma SharedIdsGetDistinctNames(ids: seq<string>, friendly: string -> string, i: nat, j: nat)
    requires i < j < |ids| && ids[i] == ids[j]
    ensures Entries(ids, friendly)[i].name != Entries(ids, friendly)[j].name
  {
    RanksGrow(ids, i, j);
    NumberedIsInjective(friendly(ids[i]), Rank(ids, i), friendly(ids[i]), Rank(ids, j));
  }

  predicate Repeated(ids: seq<string>, i: nat)
    requires i < |ids|
  {
    Count(ids, ids[i]) > 1
  }

  /** Exactly when two entries of the list show the same name: never when they share an application, but
      two applications may, by equal friendly names with the same number or none, or because the
      friendly name of one reads like a numbered name of the other. */
  lemma NamesMeetIff(ids: seq<string>, friendly: string -> string, i: nat, j: nat)
    requires i < |ids| && j < |ids| && i != j
    ensures Entries(ids, friendly)[i].name == Entries(ids, friendly)[j].name <==>
              ids[i] != ids[j] &&
              if Repeated(ids, i) && Repeated(ids, j) then friendly(ids[i]) == friendly(ids[j])
                  && Rank(ids, i) == Rank(ids, j)
              else if Repeated(ids, i) then friendly(ids[j]) == Numbered(friendly(ids[i]), Rank(ids, i))
              else if Repeated(ids, j) then friendly(ids[i]) == Numbered(friendly(ids[j]), Rank(ids, j))
              else friendly(ids[i]) == friendly(ids[j])
  {
    if ids[i] == ids[j] {
      SharedIdsGetDistinctNames(ids, friendly, if i < j then i else j, if i < j then j else i);
    } else {
      NumberedIsInjective(friendly(ids[i]), Rank(ids, i), friendly(ids[j]), Rank(ids, j));
    }
  }

  /** The last case happens: "Foo" twice beside an application whose friendly name is "Foo (1)". */
  lemma NumberedNameMeetsFriendlyName(friendly: string -> string)
    requires friendly("a") == "Foo" && friendly("b") == "Foo (1)"
    ensures var list := Entries(["a", "a", "b"], friendly); list[0].name == list[2].name
  {
    var ids := ["a", "a", "b"];
    assert ids[..2] == ["a", "a"] && ids[..1] == ["a"] && ids[..2][..1] == ["a"] && ids[..1][..0] == [];
    assert ["a", "a"][..1] == ["a"] && ["a"][..0] == [];
    assert Count(["a"], "a") == 1 && Count(["a", "a"], "a") == 2 && Count(ids, "a") == 2 && Count(ids, "b") == 1;
    assert Rank(ids, 0) == 1 && Numbered("Foo", 1) == "Foo (1)";
  }
}
