/**
 * The dashboards' dictionaries `{}` filled by `forEach` with
 * `o[k] = (o[k] || 0) + amount`. A JavaScript object keeps its string keys
 * in insertion order, so it is modelled as a sequence of entries with
 * distinct keys, a new key going to the end.
 */
module Tally {
  import opened Seqs
  import opened Text

  datatype Entry = Entry(key: string, value: real)

  function Keys(t: seq<Entry>): set<string> {
    set e | e in t :: e.key
  }

  predicate KeysDistinct(t: seq<Entry>) {
    forall i, j :: 0 <= i < j < |t| ==> t[i].key != t[j].key
  }

  function KeyOf(e: Entry): string {
    e.key
  }

  /** With distinct keys there are as many keys as entries. */
  lemma KeysCardinality(t: seq<Entry>)
    requires KeysDistinct(t)
    ensures |Keys(t)| == |t|
  {
    var ks := Map(t, KeyOf);
    assert NoDup(ks);
    NoDupCardinality(ks);
    assert (set x | x in ks) == Keys(t) by {
      forall x | x in ks ensures x in Keys(t) {
        var i :| 0 <= i < |ks| && ks[i] == x;
        assert t[i] in t;
      }
      forall e | e in t ensures e.key in ks {
        var i :| 0 <= i < |t| && t[i] == e;
        assert ks[i] == e.key;
      }
    }
  }

  /** `o[k] || 0`. */
  function ValueOf(t: seq<Entry>, k: string): real {
    if t == [] then 0.0 else if t[0].key == k then t[0].value else ValueOf(t[1..], k)
  }

  /** The sum of `Object.values(o)`. */
  function Total(t: seq<Entry>): real {
    if t == [] then 0.0 else t[0].value + Total(t[1..])
  }

  /**
   * `o[k] = (o[k] || 0) + amount`: existing keys keep their places and a new
   * key is appended with value `amount`. What it does to the values and keys
   * is stated by the lemmas below.
   */
  function Bump(t: seq<Entry>, k: string, amount: real): (r: seq<Entry>)
    ensures |r| == if k in Keys(t) then |t| else |t| + 1
    ensures forall i :: 0 <= i < |t| ==> r[i].key == t[i].key
    ensures k !in Keys(t) ==> r[|t|] == Entry(k, amount)
  {
    if t == [] then
      [Entry(k, amount)]
    else if t[0].key == k then
      [Entry(k, t[0].value + amount)] + t[1..]
    else
      assert Keys(t) == {t[0].key} + Keys(t[1..]) by {
        assert t == [t[0]] + t[1..];
      }
      [t[0]] + Bump(t[1..], k, amount)
  }

  /** Bumping adds `k` to the keys. */
  lemma {:induction false} BumpKeys(t: seq<Entry>, k: string, amount: real)
    ensures Keys(Bump(t, k, amount)) == Keys(t) + {k}
  {
    if t != [] {
      assert t == [t[0]] + t[1..];
      if t[0].key != k {
        BumpKeys(t[1..], k, amount);
        assert Bump(t, k, amount) == [t[0]] + Bump(t[1..], k, amount);
      } else {
        assert Bump(t, k, amount) == [Entry(k, t[0].value + amount)] + t[1..];
      }
    }
  }

  /** Bumping keeps the keys distinct. */
  lemma BumpDistinct(t: seq<Entry>, k: string, amount: real)
    requires KeysDistinct(t)
    ensures KeysDistinct(Bump(t, k, amount))
  {
    var r := Bump(t, k, amount);
    if k !in Keys(t) {
      forall i | 0 <= i < |t| ensures r[i].key != k {
        assert t[i] in t;
      }
    }
  }

  /** `k` gains `amount`; every other key keeps its value; the values' sum grows by `amount`. */
  lemma {:induction false} BumpValues(t: seq<Entry>, k: string, amount: real)
    ensures ValueOf(Bump(t, k, amount), k) == ValueOf(t, k) + amount
    ensures forall j :: j != k ==> ValueOf(Bump(t, k, amount), j) == ValueOf(t, j)
    ensures Total(Bump(t, k, amount)) == Total(t) + amount
  {
    if t != [] && t[0].key != k {
      BumpValues(t[1..], k, amount);
      assert Bump(t, k, amount)[1..] == Bump(t[1..], k, amount);
    }
  }

  /**
   * `items.forEach(x => { if (counted(x)) o[keyOf(x)] = (o[keyOf(x)] || 0) + amountOf(x); })`
   * starting from the dictionary `init`.
   */
  function Accumulate<T>(init: seq<Entry>, s: seq<T>, keyOf: T -> string, amountOf: T -> real, counted: T -> bool): seq<Entry> {
    if s == [] then init
    else
      var t := Accumulate(init, s[..|s| - 1], keyOf, amountOf, counted);
      var x := s[|s| - 1];
      if counted(x) then Bump(t, keyOf(x), amountOf(x)) else t
  }

  /** The dictionary's keys are the initial ones plus the keys of the counted items. */
  lemma {:induction false} AccumulateKeys<T>(init: seq<Entry>, s: seq<T>, keyOf: T -> string, amountOf: T -> real, counted: T -> bool)
    ensures Keys(Accumulate(init, s, keyOf, amountOf, counted))
            == Keys(init) + set x | x in s && counted(x) :: keyOf(x)
    ensures KeysDistinct(init) ==> KeysDistinct(Accumulate(init, s, keyOf, amountOf, counted))
  {
    if s != [] {
      var init' := s[..|s| - 1];
      var x := s[|s| - 1];
      AccumulateKeys(init, init', keyOf, amountOf, counted);
      var t := Accumulate(init, init', keyOf, amountOf, counted);
      BumpKeys(t, keyOf(x), amountOf(x));
      if KeysDistinct(init) {
        BumpDistinct(t, keyOf(x), amountOf(x));
      }
      assert s == init' + [x];
      assert (set y | y in s && counted(y) :: keyOf(y))
          == (set y | y in init' && counted(y) :: keyOf(y)) + (if counted(x) then {keyOf(x)} else {});
    }
  }

  /** The amount an item adds to key `k`: its own amount when it is counted under `k`, else 0. */
  function AmountFor<T>(keyOf: T -> string, amountOf: T -> real, counted: T -> bool, k: string): T -> real {
    x => if counted(x) && keyOf(x) == k then amountOf(x) else 0.0
  }

  /** Each key holds its initial value plus the amounts of the counted items with that key. */
  lemma {:induction false} AccumulateValue<T>(init: seq<Entry>, s: seq<T>, keyOf: T -> string, amountOf: T -> real, counted: T -> bool, k: string)
    ensures ValueOf(Accumulate(init, s, keyOf, amountOf, counted), k)
            == ValueOf(init, k) + SumBy(s, AmountFor(keyOf, amountOf, counted, k))
  {
    if s != [] {
      AccumulateValue(init, s[..|s| - 1], keyOf, amountOf, counted, k);
      var x := s[|s| - 1];
      BumpValues(Accumulate(init, s[..|s| - 1], keyOf, amountOf, counted), keyOf(x), amountOf(x));
    }
  }

  /** The amount an item adds to the dictionary: its own amount when it is counted, else 0. */
  function AmountIf<T>(amountOf: T -> real, counted: T -> bool): T -> real {
    x => if counted(x) then amountOf(x) else 0.0
  }

  /** The values add up to the initial total plus the amounts of all counted items. */
  lemma {:induction false} AccumulateTotal<T>(init: seq<Entry>, s: seq<T>, keyOf: T -> string, amountOf: T -> real, counted: T -> bool)
    ensures Total(Accumulate(init, s, keyOf, amountOf, counted))
            == Total(init) + SumBy(s, AmountIf(amountOf, counted))
  {
    if s != [] {
      AccumulateTotal(init, s[..|s| - 1], keyOf, amountOf, counted);
      var x := s[|s| - 1];
      BumpValues(Accumulate(init, s[..|s| - 1], keyOf, amountOf, counted), keyOf(x), amountOf(x));
    }
  }

  /** A sum of ones over the items that pass `p` is the number of items that pass `p`. */
  lemma {:induction false} CountBySum<T>(s: seq<T>, p: T -> bool)
    ensures SumBy(s, x => if p(x) then 1.0 else 0.0) == |Filter(s, p)| as real
  {
    if s != [] {
      var init := s[..|s| - 1];
      var last := s[|s| - 1];
      CountBySum(init, p);
      assert s == init + [last];
      FilterAppend(init, [last], p);
    }
  }

  /** The entry values, in key order (`Object.values(o)`). */
  function Values(t: seq<Entry>): (v: seq<real>)
    ensures |v| == |t|
    ensures forall i :: 0 <= i < |t| ==> v[i] == t[i].value
  {
    if t == [] then [] else [t[0].value] + Values(t[1..])
  }

  /** With distinct keys, the stored value of each entry is what `o[key]` reads. */
  lemma {:induction false} ValueOfEntry(t: seq<Entry>, i: nat)
    requires KeysDistinct(t) && i < |t|
    ensures ValueOf(t, t[i].key) == t[i].value
  {
    if i > 0 {
      assert t[1..][i - 1] == t[i];
      ValueOfEntry(t[1..], i - 1);
    }
  }

  /** The amount of a counter: every item adds one. */
  function Ones<T>(): T -> real {
    x => 1.0
  }

  /** The items `counted` that have key `k`. */
  function KeyIs<T>(keyOf: T -> string, counted: T -> bool, k: string): T -> bool {
    x => counted(x) && keyOf(x) == k
  }

  /** A counter's entry for `k` is the number of counted items with key `k`. */
  lemma CountValue<T>(init: seq<Entry>, s: seq<T>, keyOf: T -> string, counted: T -> bool, k: string)
    ensures ValueOf(Accumulate(init, s, keyOf, Ones(), counted), k)
            == ValueOf(init, k) + |Filter(s, KeyIs(keyOf, counted, k))| as real
  {
    AccumulateValue(init, s, keyOf, Ones(), counted, k);
    CountBySum(s, KeyIs(keyOf, counted, k));
    SumByPointwise(s, AmountFor(keyOf, Ones(), counted, k),
                      x => if KeyIs(keyOf, counted, k)(x) then 1.0 else 0.0);
  }

  /** A counter's entries add up to the number of counted items. */
  lemma CountTotal<T>(init: seq<Entry>, s: seq<T>, keyOf: T -> string, counted: T -> bool)
    ensures Total(Accumulate(init, s, keyOf, Ones(), counted)) == Total(init) + |Filter(s, counted)| as real
  {
    AccumulateTotal(init, s, keyOf, Ones(), counted);
    CountBySum(s, counted);
    SumByPointwise(s, AmountIf(Ones(), counted),
                      x => if counted(x) then 1.0 else 0.0);
  }

  /**
   * The `forEach` loop itself: for each item in order, when `counted`,
   * `o[keyOf(x)] = (o[keyOf(x)] || 0) + amountOf(x)`.
   */
  method Fill<T>(init: seq<Entry>, items: seq<T>, keyOf: T -> string, amountOf: T -> real, counted: T -> bool)
    returns (o: seq<Entry>)
    ensures o == Accumulate(init, items, keyOf, amountOf, counted)
  {
    o := init;
    var i := 0;
    while i < |items|
      invariant 0 <= i <= |items|
      invariant o == Accumulate(init, items[..i], keyOf, amountOf, counted)
    {
      var x := items[i];
      if counted(x) {
        o := Bump(o, keyOf(x), amountOf(x));
      }
      assert items[..i + 1][..i] == items[..i];
      i := i + 1;
    }
    assert items[..|items|] == items;
  }

  /** The sort key of `Object.entries(o).sort((a, b) => b[1] - a[1])`. */
  function EntryValue(e: Entry): real {
    e.value
  }

  /**
   * The chart labels of a ranking: a key longer than 15 characters is cut
   * to its first 15 and "..." is added.
   */
  function Labels(top: seq<Entry>): (labels: seq<string>)
    ensures |labels| == |top|
    ensures forall i :: 0 <= i < |top| ==> labels[i] == Ellipsize(top[i].key, 15)
  {
    if top == [] then [] else [Ellipsize(top[0].key, 15)] + Labels(top[1..])
  }
}
