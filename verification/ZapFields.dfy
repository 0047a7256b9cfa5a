/** Log argument conversion (internal/utils/hclog.go). */
module ZapFields {

  /** A log argument: a string, or some other value. */
  datatype Arg = Str(s: string) | Other(v: int)

  /** A structured field: keyed by a string argument, or named after the position `index`. */
  datatype Field = Keyed(key: string, value: Arg) | Positional(index: nat, value: Arg)

  /** The arguments that a field stands for. */
  function ArgsOf(f: Field): seq<Arg> {
    match f
    case Keyed(k, v) => [Str(k), v]
    case Positional(_, v) => [v]
  }

  /** Read the fields back, last field first: the inverse of the conversion. */
  function ReadBack(fields: seq<Field>): seq<Arg> {
    if fields == [] then [] else
    ArgsOf(fields[|fields| - 1]) + ReadBack(fields[..|fields| - 1])
  }

  lemma {:induction false} ReadBackAppend(fields: seq<Field>, f: Field)
    ensures ReadBack(fields + [f]) == ArgsOf(f) + ReadBack(fields)
  {
    assert (fields + [f])[..|fields|] == fields;
  }

  // ---- names ----

  /** The first of the `n` arguments that the `j`-th field stands for. The fields are made from the
      back, so the first `j + 1` of them stand for the last arguments. */
  function StartOf(fields: seq<Field>, n: nat, j: nat): int
    requires j < |fields|
  {
    n - |ReadBack(fields[..j + 1])|
  }

  lemma StartOfAppend(fields: seq<Field>, f: Field, n: nat, j: nat)
    requires j <= |fields|
    ensures StartOf(fields + [f], n, j) ==
            if j < |fields| then StartOf(fields, n, j) else n - |ReadBack(fields)| - |ArgsOf(f)|
  {
    if j < |fields| {
      assert (fields + [f])[..j + 1] == fields[..j + 1];
    } else {
      assert (fields + [f])[..j + 1] == fields + [f];
      ReadBackAppend(fields, f);
    }
  }

  /** Every positional field is named after the place of its value. */
  ghost predicate NamesTrueIndex(fields: seq<Field>, n: nat) {
    forall j :: NamedAt(fields, n, j)
  }

  predicate NamedAt(fields: seq<Field>, n: nat, j: int) {
    0 <= j < |fields| && fields[j].Positional? ==> fields[j].index == StartOf(fields, n, j)
  }

  lemma {:induction false} OneMoreName(fields: seq<Field>, n: nat, f: Field)
    requires NamesTrueIndex(fields, n)
    requires f.Positional? ==> f.index == n - |ReadBack(fields)| - 1
    ensures NamesTrueIndex(fields + [f], n)
  {
    forall j ensures NamedAt(fields + [f], n, j) {
      if 0 <= j <= |fields| {
        assert NamedAt(fields, n, j);
        StartOfAppend(fields, f, n, j);
      }
    }
  }

  // ---- pairs ----

  /** Arguments are paired from the back: `q` is the first of a pair. */
  predicate PairAt(args: seq<Arg>, q: int) {
    0 <= q < |args| - 1 && (|args| - q) % 2 == 0
  }

  /** The pairs from `lo` on whose first argument is no string. */
  function OtherPairs(args: seq<Arg>, lo: nat): set<int> {
    set q | lo <= q < |args| && PairAt(args, q) && !args[q].Str?
  }

  /** How many fields the arguments from `lo` on make: one for each pair and for a single argument,
      and one more for each pair whose first argument is no string. */
  function FieldCount(args: seq<Arg>, lo: nat): nat
    requires lo <= |args|
  {
    (|args| - lo + 1) / 2 + |OtherPairs(args, lo)|
  }

  lemma CountNone(args: seq<Arg>)
    ensures FieldCount(args, |args|) == 0
  {
    assert OtherPairs(args, |args|) == {};
  }

  lemma CountKeyed(args: seq<Arg>, lo: nat)
    requires lo + 2 <= |args| && (|args| - lo) % 2 == 0 && args[lo].Str?
    ensures FieldCount(args, lo) == FieldCount(args, lo + 2) + 1
  {
    assert OtherPairs(args, lo) == OtherPairs(args, lo + 2);
  }

  lemma CountOther(args: seq<Arg>, lo: nat)
    requires lo + 2 <= |args| && (|args| - lo) % 2 == 0 && !args[lo].Str?
    ensures FieldCount(args, lo) == FieldCount(args, lo + 2) + 2
  {
    assert OtherPairs(args, lo) == OtherPairs(args, lo + 2) + {lo};
  }

  lemma CountSingle(args: seq<Arg>)
    requires |args| % 2 == 1
    ensures FieldCount(args, 0) == FieldCount(args, 1) + 1
  {
    assert OtherPairs(args, 0) == OtherPairs(args, 1);
  }

  /** The fields of the pair at `q`, after those of the arguments behind it: one keyed by the first
      argument if that is a string, and otherwise one for each argument, the second one first. */
  predicate PairMade(fields: seq<Field>, args: seq<Arg>, q: int) {
    PairAt(args, q) ==>
      var j := FieldCount(args, q + 2);
      if args[q].Str? then j < |fields| && fields[j] == Keyed(args[q].s, args[q + 1])
      else j + 1 < |fields| && fields[j] == Positional(q + 1, args[q + 1]) && fields[j + 1] == Positional(q, args[q])
  }

  ghost predicate PairsMade(fields: seq<Field>, args: seq<Arg>, lo: nat) {
    forall q :: lo <= q ==> PairMade(fields, args, q)
  }

  lemma PairStays(fields: seq<Field>, more: seq<Field>, args: seq<Arg>, q: int)
    requires PairMade(fields, args, q) && fields <= more
    ensures PairMade(more, args, q)
  {
  }

  lemma OneMorePair(fields: seq<Field>, more: seq<Field>, args: seq<Arg>, lo: nat)
    requires lo >= 2 && PairsMade(fields, args, lo) && fields <= more && PairMade(more, args, lo - 2)
    requires lo <= |args| && (|args| - lo) % 2 == 0
    ensures PairsMade(more, args, lo - 2)
  {
    forall q | lo - 2 <= q ensures PairMade(more, args, q) {
      if q >= lo {
        PairStays(fields, more, args, q);
      }
    }
  }

  // ---- one turn ----

  /** The fields after the arguments from `lo` on have been converted. */
  ghost predicate Converted(fields: seq<Field>, args: seq<Arg>, lo: nat) {
    && lo <= |args| && |fields| == FieldCount(args, lo) && PairsMade(fields, args, lo)
    && ReadBack(fields) == args[lo..] && NamesTrueIndex(fields, |args|)
  }

  lemma {:induction false} OneMoreReadBack(fields: seq<Field>, args: seq<Arg>, lo: nat, f: Field)
    requires |ArgsOf(f)| <= lo <= |args| && ReadBack(fields) == args[lo..] && args[lo - |ArgsOf(f)|..lo] == ArgsOf(f)
    requires NamesTrueIndex(fields, |args|) && (f.Positional? ==> f.index == lo - 1)
    ensures ReadBack(fields + [f]) == args[lo - |ArgsOf(f)|..] && NamesTrueIndex(fields + [f], |args|)
  {
    ReadBackAppend(fields, f);
    assert args[lo - |ArgsOf(f)|..lo] + args[lo..] == args[lo - |ArgsOf(f)|..];
    OneMoreName(fields, |args|, f);
  }

  lemma KeyedPairMade(fields: seq<Field>, args: seq<Arg>, lo: nat, f: Field)
    requires 2 <= lo <= |args| && (|args| - lo) % 2 == 0 && args[lo - 2].Str?
    requires |fields| == FieldCount(args, lo) && PairsMade(fields, args, lo)
    requires f == Keyed(args[lo - 2].s, args[lo - 1])
    ensures |fields + [f]| == FieldCount(args, lo - 2) && PairsMade(fields + [f], args, lo - 2)
  {
    CountKeyed(args, lo - 2);
    assert PairMade(fields + [f], args, lo - 2);
    OneMorePair(fields, fields + [f], args, lo);
  }

  lemma {:induction false} KeyedTurn(fields: seq<Field>, args: seq<Arg>, lo: nat)
    requires Converted(fields, args, lo) && lo >= 2 && (|args| - lo) % 2 == 0 && args[lo - 2].Str?
    ensures Converted(fields + [Keyed(args[lo - 2].s, args[lo - 1])], args, lo - 2)
  {
    var f := Keyed(args[lo - 2].s, args[lo - 1]);
    assert args[lo - 2..lo] == ArgsOf(f);
    OneMoreReadBack(fields, args, lo, f);
    KeyedPairMade(fields, args, lo, f);
  }

  lemma OtherPairMade(fields: seq<Field>, args: seq<Arg>, lo: nat, f: Field, g: Field)
    requires 2 <= lo <= |args| && (|args| - lo) % 2 == 0 && !args[lo - 2].Str?
    requires |fields| == FieldCount(args, lo) && PairsMade(fields, args, lo)
    requires f == Positional(lo - 1, args[lo - 1]) && g == Positional(lo - 2, args[lo - 2])
    ensures |fields + [f] + [g]| == FieldCount(args, lo - 2) && PairsMade(fields + [f] + [g], args, lo - 2)
  {
    CountOther(args, lo - 2);
    var more := fields + [f] + [g];
    assert PairMade(more, args, lo - 2);
    OneMorePair(fields, more, args, lo);
  }

  lemma {:induction false} OtherTurn(fields: seq<Field>, args: seq<Arg>, lo: nat)
    requires Converted(fields, args, lo) && lo >= 2 && (|args| - lo) % 2 == 0 && !args[lo - 2].Str?
    ensures Converted(fields + [Positional(lo - 1, args[lo - 1])] + [Positional(lo - 2, args[lo - 2])], args, lo - 2)
  {
    var f, g := Positional(lo - 1, args[lo - 1]), Positional(lo - 2, args[lo - 2]);
    assert args[lo - 1..lo] == ArgsOf(f) && args[lo - 2..lo - 1] == ArgsOf(g);
    OneMoreReadBack(fields, args, lo, f);
    OneMoreReadBack(fields + [f], args, lo - 1, g);
    OtherPairMade(fields, args, lo, f, g);
  }

  lemma SinglePairsMade(fields: seq<Field>, args: seq<Arg>, f: Field)
    requires |args| % 2 == 1 && |fields| == FieldCount(args, 1) && PairsMade(fields, args, 1)
    ensures |fields + [f]| == FieldCount(args, 0) && PairsMade(fields + [f], args, 0)
  {
    CountSingle(args);
    forall q | 0 <= q ensures PairMade(fields + [f], args, q) {
      if q >= 1 {
        PairStays(fields, fields + [f], args, q);
      }
    }
  }

  lemma {:induction false} SingleTurn(fields: seq<Field>, args: seq<Arg>)
    requires Converted(fields, args, 1) && |args| % 2 == 1
    ensures Converted(fields + [Positional(0, args[0])], args, 0)
    ensures (fields + [Positional(0, args[0])])[|fields|] == Positional(0, args[0])
  {
    var f := Positional(0, args[0]);
    assert args[0..1] == ArgsOf(f);
    OneMoreReadBack(fields, args, 1, f);
    SinglePairsMade(fields, args, f);
  }

  // ---- the loop ----

  /** The loop variable of the source may end at -1. */
  function Clip(i: int): nat {
    if i < 0 then 0 else i
  }

  /** A single argument left at the front makes the last field. */
  predicate SingleMade(fields: seq<Field>, args: seq<Arg>) {
    |args| % 2 == 1 ==> |fields| > 0 && fields[|fields| - 1] == Positional(0, args[0])
  }

  /** The loop has come down to `i`. */
  ghost predicate DownTo(fields: seq<Field>, args: seq<Arg>, i: int) {
    exists lo: nat :: lo == Clip(i) && Down(fields, args, i, lo)
  }

  ghost predicate Down(fields: seq<Field>, args: seq<Arg>, i: int, lo: nat) {
    && -1 <= i <= |args| && (|args| - i) % 2 == 0
    && Converted(fields, args, lo) && (i < 0 ==> SingleMade(fields, args))
  }

  lemma {:induction false} KeyedGoesDown(fields: seq<Field>, args: seq<Arg>, i: nat)
    requires DownTo(fields, args, i) && 2 <= i <= |args| && args[i - 2].Str?
    ensures DownTo(fields + [Keyed(args[i - 2].s, args[i - 1])], args, i - 2)
  {
    KeyedTurn(fields, args, i);
    assert Down(fields + [Keyed(args[i - 2].s, args[i - 1])], args, i - 2, i - 2);
  }

  lemma {:induction false} OtherGoesDown(fields: seq<Field>, args: seq<Arg>, i: nat)
    requires DownTo(fields, args, i) && 2 <= i <= |args| && !args[i - 2].Str?
    ensures DownTo(fields + [Positional(i - 1, args[i - 1])] + [Positional(i - 2, args[i - 2])], args, i - 2)
  {
    OtherTurn(fields, args, i);
    assert Down(fields + [Positional(i - 1, args[i - 1])] + [Positional(i - 2, args[i - 2])], args, i - 2, i - 2);
  }

  lemma {:induction false} SingleGoesDown(fields: seq<Field>, args: seq<Arg>)
    requires DownTo(fields, args, 1) && 1 <= |args|
    ensures DownTo(fields + [Positional(0, args[0])], args, -1)
  {
    SingleTurn(fields, args);
    assert Down(fields + [Positional(0, args[0])], args, -1, 0);
  }

  lemma Bounds(fields: seq<Field>, args: seq<Arg>, i: int)
    requires DownTo(fields, args, i)
    ensures i <= |args|
  {
  }

  /** One turn of the loop: a pair of arguments, or the single one left at the front. */
  method ConvertItems(args: seq<Arg>, i: int, fields: seq<Field>) returns (more: seq<Field>)
    requires 0 < i && DownTo(fields, args, i)
    ensures DownTo(more, args, i - 2)
  {
    Bounds(fields, args, i);
    var left := Clip(i - 2);
    var items := args[left..i];
    if |items| == 1 {
      more := fields + [Positional(left, items[0])];
      SingleGoesDown(fields, args);
    } else if items[0].Str? {
      more := fields + [Keyed(items[0].s, items[1])];
      KeyedGoesDown(fields, args, i);
    } else {
      more := fields + [Positional(i - 1, items[1])] + [Positional(left, items[0])];
      OtherGoesDown(fields, args, i);
    }
  }

  /** What the conversion is, on the arguments alone. Reading the fields back gives the arguments
      again, so none is lost or reordered. Arguments are paired from the back, and the fields of each
      pair stand at their place: a keyed one exactly if the first argument is a string, and otherwise
      one for each argument. A single argument at the front makes the last field. There are as many
      fields as pairs, rounded up, and one more for each pair whose first argument is no string. */
  ghost predicate Lossless(fields: seq<Field>, args: seq<Arg>) {
    && ReadBack(fields) == args && NamesTrueIndex(fields, |args|)
    && (forall q :: PairMade(fields, args, q)) && SingleMade(fields, args)
    && |fields| == (|args| + 1) / 2 + |set q | 0 <= q < |args| && PairAt(args, q) && !args[q].Str?|
  }

  /** The backward loop over the arguments, in pairs. */
  method ConvertToZapAny(args: seq<Arg>) returns (converted: seq<Field>)
    ensures Lossless(converted, args)
  {
    converted := [];
    var i := |args|;
    NothingConverted(args);
    while i > 0
      invariant DownTo(converted, args, i)
      decreases i
    {
      converted := ConvertItems(args, i, converted);
      i := i - 2;
    }
    EverythingConverted(converted, args, i);
  }

  lemma NothingConverted(args: seq<Arg>)
    ensures DownTo([], args, |args|)
  {
    CountNone(args);
    assert Down([], args, |args|, |args|);
  }

  lemma {:induction false} EverythingConverted(fields: seq<Field>, args: seq<Arg>, i: int)
    requires DownTo(fields, args, i) && i <= 0
    ensures Lossless(fields, args)
  {
    assert args[0..] == args;
    assert OtherPairs(args, 0) == set q | 0 <= q < |args| && PairAt(args, q) && !args[q].Str?;
    assert forall q :: q < 0 ==> PairMade(fields, args, q);
  }

  /** An ordinary log call keeps its keys: if the first argument of every pair is a string, every
      field but that of a single argument at the front is keyed. */
  lemma KeysAreKept(fields: seq<Field>, args: seq<Arg>, q: int)
    requires Lossless(fields, args) && PairAt(args, q) && args[q].Str?
    ensures Keyed(args[q].s, args[q + 1]) in fields
  {
    assert PairMade(fields, args, q);
  }

  /** `f` is a field of the pair at `q`. */
  predicate FromPair(f: Field, args: seq<Arg>, q: int) {
    && PairAt(args, q)
    && if args[q].Str? then f == Keyed(args[q].s, args[q + 1])
       else f == Positional(q, args[q]) || f == Positional(q + 1, args[q + 1])
  }

  lemma PairOfPlace(args: seq<Arg>, lo: nat, j: nat) returns (q: nat)
    requires lo <= |args| && (|args| - lo) % 2 == 0 && j < FieldCount(args, lo)
    ensures PairAt(args, q) && FieldCount(args, q + 2) <= j < FieldCount(args, q)
    decreases |args| - lo
  {
    CountNone(args);
    if j < FieldCount(args, lo + 2) {
      q := PairOfPlace(args, lo + 2, j);
    } else {
      q := lo;
    }
  }

  /** Every field comes from a pair of arguments, in the form of that pair, or is the last one and
      stands for the single argument at the front. So positional fields come only from pairs whose
      first argument is no string and from that single argument. */
  lemma EveryFieldHasItsPair(fields: seq<Field>, args: seq<Arg>, j: nat)
    requires Lossless(fields, args) && j < |fields|
    ensures (exists q :: FromPair(fields[j], args, q)) ||
            (|args| % 2 == 1 && j == |fields| - 1 && fields[j] == Positional(0, args[0]))
  {
    if |args| % 2 == 1 {
      CountSingle(args);
    }
    if j < FieldCount(args, |args| % 2) {
      var q := PairOfPlace(args, |args| % 2, j);
      PlaceOfPair(fields, args, q, j);
    }
  }

  lemma PlaceOfPair(fields: seq<Field>, args: seq<Arg>, q: nat, j: nat)
    requires PairMade(fields, args, q) && PairAt(args, q)
    requires FieldCount(args, q + 2) <= j < FieldCount(args, q) && j < |fields|
    ensures FromPair(fields[j], args, q)
  {
    if args[q].Str? {
      CountKeyed(args, q);
    } else {
      CountOther(args, q);
    }
  }

  /** What the first fields stand for ends what all of them stand for. */
  lemma {:induction false} ReadBackEnds(fields: seq<Field>, j: nat)
    requires j <= |fields|
    ensures var part, all := ReadBack(fields[..j]), ReadBack(fields);
      |part| <= |all| && all[|all| - |part|..] == part
  {
    if j == |fields| {
      assert fields[..j] == fields;
    } else {
      var init := fields[..|fields| - 1];
      assert init[..j] == fields[..j];
      ReadBackEnds(init, j);
    }
  }

  lemma {:induction false} StartsWithValue(fields: seq<Field>, j: nat)
    requires j < |fields| && fields[j].Positional?
    ensures var part := ReadBack(fields[..j + 1]); |part| > 0 && part[0] == fields[j].value
  {
    assert fields[..j + 1] == fields[..j] + [fields[j]];
    ReadBackAppend(fields[..j], fields[j]);
  }

  lemma FirstOfEnd(args: seq<Arg>, part: seq<Arg>)
    requires 0 < |part| <= |args| && args[|args| - |part|..] == part
    ensures args[|args| - |part|] == part[0]
  {
    assert args[|args| - |part|..][0] == part[0];
  }

  /** The name of a positional field finds its value among the arguments. */
  lemma {:induction false} NameFindsValue(fields: seq<Field>, args: seq<Arg>, j: nat)
    requires Lossless(fields, args) && j < |fields| && fields[j].Positional?
    ensures fields[j].index < |args| && args[fields[j].index] == fields[j].value
  {
    assert NamedAt(fields, |args|, j);
    PartEnds(fields, args, j);
    StartsWithValue(fields, j);
    FirstOfEnd(args, ReadBack(fields[..j + 1]));
  }

  lemma {:induction false} PartEnds(fields: seq<Field>, args: seq<Arg>, j: nat)
    requires ReadBack(fields) == args && j < |fields|
    ensures var part := ReadBack(fields[..j + 1]); |part| <= |args| && args[|args| - |part|..] == part
  {
    ReadBackEnds(fields, j + 1);
  }
}
