/** Small value types shared by the modules of this project. */
module Common {

  datatype Option<+T> = None | Some(value: T)

  /** How writing a file ended: as it should, without having touched the file, or with only the
      beginning of the new text in it. */
  datatype Written = Complete | Untouched | CutShort(length: nat)

  function WrittenText(data: string, w: Written): (r: Option<string>)
    ensures r.Some? ==> r.value <= data
  {
    match w
    case Complete => Some(data)
    case Untouched => None
    case CutShort(n) => Some(if n < |data| then data[..n] else data)
  }

  /** The elements of a sequence, order and multiplicity forgotten. */
  function Elements<T>(s: seq<T>): set<T> {
    set x | x in s
  }

  lemma ElementsOfConcat<T>(a: seq<T>, b: seq<T>)
    ensures Elements(a + b) == Elements(a) + Elements(b)
  {
    forall x ensures x in Elements(a + b) <==> x in Elements(a) + Elements(b) {
      assert x in a + b <==> x in a || x in b;
    }
  }

  predicate Distinct<T(==)>(s: seq<T>) {
    forall i, j :: 0 <= i < j < |s| ==> s[i] != s[j]
  }

  // ---------------------------------------------------------------- choices from a list

  /** A strictly increasing choice of positions. */
  predicate Increasing(at: seq<nat>) {
    forall i, j :: 0 <= i < j < |at| ==> at[i] < at[j]
  }

  /** The entries at these positions, one after the other. */
  predicate Picks<T(==)>(s: seq<T>, at: seq<nat>, kept: seq<T>) {
    |at| == |kept| && forall i :: 0 <= i < |at| ==> at[i] < |s| && kept[i] == s[at[i]]
  }

  /** Where the entries are that are to be kept. */
  function Positions<T>(s: seq<T>, keep: T -> bool): seq<nat> {
    if s == [] then []
    else
      var n := |s| - 1;
      Positions(s[..n], keep) + if keep(s[n]) then [n] else []
  }

  lemma {:induction false} PositionsAre<T>(s: seq<T>, keep: T -> bool)
    ensures Increasing(Positions(s, keep))
    ensures forall i :: 0 <= i < |Positions(s, keep)| ==> Positions(s, keep)[i] < |s|
    ensures forall k: nat :: k < |s| ==> (k in Positions(s, keep) <==> keep(s[k]))
  {
    if s != [] {
      var n := |s| - 1;
      var before := Positions(s[..n], keep);
      PositionsAre(s[..n], keep);
      forall k: nat | k < |s| ensures k in Positions(s, keep) <==> keep(s[k]) {
        if k < n {
          assert k in Positions(s, keep) <==> k in before;
          assert s[..n][k] == s[k];
        } else {
          assert n !in before;
        }
      }
    }
  }

  function Pow2(n: nat): (r: nat)
    ensures r >= 1
  {
    if n == 0 then 1 else 2 * Pow2(n - 1)
  }

  lemma {:induction false} Pow2Grows(m: nat, n: nat)
    requires m <= n
    ensures 1 <= Pow2(m) <= Pow2(n)
  {
    if m < n {
      Pow2Grows(m, n - 1);
    } else if m > 0 {
      Pow2Grows(m - 1, m - 1);
    }
  }

  lemma {:induction false} Pow2Sum(m: nat, n: nat)
    ensures Pow2(m + n) == Pow2(m) * Pow2(n)
  {
    if m > 0 {
      Pow2Sum(m - 1, n);
    }
  }
}
