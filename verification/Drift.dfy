/** The price drift check: the family rate table compared with a reference dataset, field by field.
    Prices are reals. */
module Drift {
  import opened Basics
  import opened SortedNames

  datatype ParseError = Unparseable

  datatype Severity = Fine | Warn | High | NoReference
  datatype Direction = OursLower | OursHigher | NotApplicable

  datatype Finding = Finding(
    family: string,
    refId: string,
    field: string,
    oursPerMillion: real,
    theirsPerMillion: real,
    pctDelta: real,
    severity: Severity,
    direction: Direction)

  datatype Report = Report(
    sourceSha: string,
    generatedAt: string,
    pricingAsOf: string,
    checked: nat,
    fine: nat,
    findings: seq<Finding>)

  datatype Rate = Rate(input: real, output: real, cacheRead: real, cacheWrite: real)
  datatype Entry = Entry(input: Option<real>, output: Option<real>, cacheRead: Option<real>, cacheWrite: Option<real>)

  const WARN_PCT := 2.0
  const HIGH_PCT := 10.0
  const PER_MILLION := 1_000_000.0

  // ----- one field -----

  function Abs(x: real): real {
    if x < 0.0 then -x else x
  }

  /** compareField. */
  function CompareField(family: string, refId: string, field: string, ours: real, theirs: Option<real>): Finding {
    if theirs.None? || theirs.value == 0.0 then
      Finding(family, refId, field, ours * PER_MILLION, 0.0, 0.0, NoReference, NotApplicable)
    else
      var pct := (ours - theirs.value) / theirs.value * 100.0;
      Finding(family, refId, field, ours * PER_MILLION, theirs.value * PER_MILLION, pct,
              if Abs(pct) > HIGH_PCT then High else if Abs(pct) > WARN_PCT then Warn else Fine,
              if ours < theirs.value then OursLower else if ours > theirs.value then OursHigher else NotApplicable)
  }

  lemma RatioSize(d: real, y: real)
    requires y != 0.0
    ensures Abs(d / y) * Abs(y) == Abs(d)
  {
    var q := d / y;
    assert q * y == d;
  }

  lemma RatioSign(d: real, y: real)
    requires y != 0.0
    ensures d / y < 0.0 <==> if y > 0.0 then d < 0.0 else d > 0.0
  {
    var q := d / y;
    assert q * y == d;
  }

  lemma Scales(q: real, y: real, b: real)
    requires y > 0.0
    ensures q > b <==> q * y > b * y
  {
  }

  lemma RatioBand(d: real, y: real, b: real)
    requires y != 0.0
    ensures Abs(d / y * 100.0) > b * 100.0 <==> Abs(d) > b * Abs(y)
  {
    var q := d / y;
    RatioSize(d, y);
    Scales(Abs(q), Abs(y), b);
    assert Abs(q * 100.0) == Abs(q) * 100.0;
  }

  /** The bands without a division, for every reference price but zero: high is more than a tenth of
      the reference away, fine at most a fiftieth, warn between. The direction compares the prices, and
      both are given per million. The delta leads from their price back to ours, and its sign agrees
      with the direction exactly when the reference is positive or the prices are equal. */
  lemma Bands(family: string, refId: string, field: string, ours: real, theirs: real)
    requires theirs != 0.0
    ensures var f := CompareField(family, refId, field, ours, Some(theirs));
            && (f.severity == High <==> Abs(ours - theirs) > 0.1 * Abs(theirs))
            && (f.severity == Fine <==> Abs(ours - theirs) <= 0.02 * Abs(theirs))
            && f.severity != NoReference
            && (f.direction == OursLower <==> ours < theirs) && (f.direction == OursHigher <==> ours > theirs)
            && (f.direction == NotApplicable <==> ours == theirs)
            && f.oursPerMillion == ours * 1_000_000.0 && f.theirsPerMillion == theirs * 1_000_000.0
            && f.theirsPerMillion + f.theirsPerMillion * f.pctDelta / 100.0 == f.oursPerMillion
            && ((f.direction == OursLower <==> f.pctDelta < 0.0) <==> theirs > 0.0 || ours == theirs)
  {
    var d, q := ours - theirs, (ours - theirs) / theirs;
    RatioBand(d, theirs, 0.1);
    RatioBand(d, theirs, 0.02);
    RatioSign(d, theirs);
    assert q * theirs == d;
    assert theirs * PER_MILLION * (q * 100.0) / 100.0 == d * PER_MILLION;
  }

  /** A field is without reference exactly when the dataset has no price for it or prices it at
      zero; such a finding claims no delta and no direction. */
  lemma BlindIff(family: string, refId: string, field: string, ours: real, theirs: Option<real>)
    ensures var f := CompareField(family, refId, field, ours, theirs);
            && (f.severity == NoReference <==> theirs.None? || theirs.value == 0.0)
            && (f.severity == NoReference ==>
                  f.pctDelta == 0.0 && f.theirsPerMillion == 0.0 && f.direction == NotApplicable)
            && f.family == family && f.refId == refId && f.field == field && f.oursPerMillion == ours * 1_000_000.0
  {
  }

  // ----- the report a listing of families leads to -----

  datatype Tables = Tables(rates: map<string, Rate>, refs: map<string, string>, dataset: map<string, Entry>)

  datatype Field = Field(name: string, ours: real, theirs: Option<real>)

  /** The dataset id a family is checked against; empty when it has none. */
  function RefId(t: Tables, family: string): string {
    if family in t.refs then t.refs[family] else ""
  }

  predicate Unreferenced(t: Tables, family: string) {
    RefId(t, family) == "" || RefId(t, family) !in t.dataset
  }

  function Fields(rate: Rate, entry: Entry): (fs: seq<Field>)
    ensures |fs| == 4
  {
    [Field("input", rate.input, entry.input), Field("output", rate.output, entry.output),
     Field("cache_read", rate.cacheRead, entry.cacheRead), Field("cache_write", rate.cacheWrite, entry.cacheWrite)]
  }

  function Missing(t: Tables, family: string): Finding {
    Finding(family, RefId(t, family), "*", 0.0, 0.0, 0.0, NoReference, NotApplicable)
  }

  /** What one field contributes: one of checked and fine, a drift, a blind spot, or nothing. */
  datatype Fate = IsFine | Drifts | Blind | Skipped

  function FateOf(f: Finding, ours: real): Fate {
    match f.severity
    case Fine => IsFine
    case NoReference => if ours > 0.0 then Blind else Skipped
    case _ => Drifts
  }

  datatype Tally = Tally(checked: nat, fine: nat, skipped: nat, findings: seq<Finding>)

  function AddField(tally: Tally, f: Finding, ours: real): Tally {
    match FateOf(f, ours)
    case IsFine => tally.(checked := tally.checked + 1, fine := tally.fine + 1)
    case Drifts => tally.(checked := tally.checked + 1, findings := tally.findings + [f])
    case Blind => tally.(findings := tally.findings + [f])
    case Skipped => tally.(skipped := tally.skipped + 1)
  }

  function AddFields(tally: Tally, family: string, refId: string, fields: seq<Field>): Tally {
    if fields == [] then tally
    else
      var last := fields[|fields| - 1];
      AddField(AddFields(tally, family, refId, fields[..|fields| - 1]),
               CompareField(family, refId, last.name, last.ours, last.theirs), last.ours)
  }

  function AddFamily(t: Tables, tally: Tally, family: string): Tally
    requires family in t.rates
  {
    if Unreferenced(t, family) then tally.(findings := tally.findings + [Missing(t, family)])
    else AddFields(tally, family, RefId(t, family), Fields(t.rates[family], t.dataset[RefId(t, family)]))
  }

  function Total(t: Tables, families: seq<string>): Tally
    requires forall f :: f in families ==> f in t.rates
  {
    if families == [] then Tally(0, 0, 0, [])
    else AddFamily(t, Total(t, families[..|families| - 1]), families[|families| - 1])
  }

  // ----- conservation -----

  predicate IsDrift(f: Finding) {
    f.severity == Warn || f.severity == High
  }

  /** Kinds of findings: real drift, a family or a field without a reference, and everything that
      has a reference. */
  datatype Kind = Drifting | WholeFamily | BlindField | Referenced

  predicate Is(kind: Kind, f: Finding) {
    match kind
    case Drifting => IsDrift(f)
    case WholeFamily => f.severity == NoReference && f.field == "*"
    case BlindField => f.severity == NoReference && f.field != "*"
    case Referenced => f.severity != NoReference
  }

  function Count(kind: Kind, fs: seq<Finding>): nat {
    if fs == [] then 0 else Count(kind, fs[..|fs| - 1]) + (if Is(kind, fs[|fs| - 1]) then 1 else 0)
  }

  /** The balance of a tally: what has been compared, against where it went. */
  function Accounted(tally: Tally): nat {
    tally.checked + 4 * Count(WholeFamily, tally.findings) + Count(BlindField, tally.findings) + tally.skipped
  }

  ghost predicate Balanced(tally: Tally) {
    && tally.checked - tally.fine == Count(Drifting, tally.findings)
    && NoneFine(tally.findings)
  }

  ghost predicate NoneFine(fs: seq<Finding>) {
    forall f :: f in fs ==> f.severity != Fine
  }

  lemma FindingBalance(tally: Tally, f: Finding)
    ensures var fs := tally.findings + [f];
            && Count(Drifting, fs) == Count(Drifting, tally.findings) + (if IsDrift(f) then 1 else 0)
            && Count(WholeFamily, fs) == Count(WholeFamily, tally.findings) + (if Is(WholeFamily, f) then 1 else 0)
            && Count(BlindField, fs) == Count(BlindField, tally.findings) + (if Is(BlindField, f) then 1 else 0)
  {
  }

  lemma FieldBalance(tally: Tally, f: Finding, ours: real)
    requires Balanced(tally) && f.field != "*"
    ensures Balanced(AddField(tally, f, ours)) && Accounted(AddField(tally, f, ours)) == Accounted(tally) + 1
  {
    hide Count;
    if FateOf(f, ours) == Drifts || FateOf(f, ours) == Blind {
      FindingBalance(tally, f);
    }
  }

  lemma {:induction false} FieldsBalance(tally: Tally, family: string, refId: string, fields: seq<Field>)
    requires Balanced(tally) && forall i :: 0 <= i < |fields| ==> fields[i].name != "*"
    ensures Balanced(AddFields(tally, family, refId, fields))
    ensures Accounted(AddFields(tally, family, refId, fields)) == Accounted(tally) + |fields|
    decreases |fields|
  {
    if fields == [] {
    } else {
      var front, last := fields[..|fields| - 1], fields[|fields| - 1];
      FieldsBalance(tally, family, refId, front);
      FieldBalance(AddFields(tally, family, refId, front),
                   CompareField(family, refId, last.name, last.ours, last.theirs), last.ours);
    }
  }

  lemma FamilyBalance(t: Tables, tally: Tally, family: string)
    requires family in t.rates && Balanced(tally)
    ensures Balanced(AddFamily(t, tally, family)) && Accounted(AddFamily(t, tally, family)) == Accounted(tally) + 4
  {
    if Unreferenced(t, family) {
      FindingBalance(tally, Missing(t, family));
    } else {
      FieldsBalance(tally, family, RefId(t, family), Fields(t.rates[family], t.dataset[RefId(t, family)]));
    }
  }

  lemma EmptyBalance()
    ensures Balanced(Tally(0, 0, 0, [])) && Accounted(Tally(0, 0, 0, [])) == 0
  {
  }

  /** Every field of every family is accounted for exactly once: checked, part of a family without
      a reference, reported as blind, or skipped as unpriced on both sides; and the checked fields
      that are not fine are exactly the drift findings. */
  lemma {:induction false} EveryFieldIsAccountedFor(t: Tables, families: seq<string>)
    requires forall f :: f in families ==> f in t.rates
    ensures Balanced(Total(t, families))
    ensures 4 * |families| == Accounted(Total(t, families))
    decreases |families|
  {
    hide Count, AddFamily, Balanced, Accounted;
    if families == [] {
      EmptyBalance();
    } else {
      EveryFieldIsAccountedFor(t, families[..|families| - 1]);
      assert families[|families| - 1] in families;
      FamilyBalance(t, Total(t, families[..|families| - 1]), families[|families| - 1]);
    }
  }

  // ----- which findings -----

  /** f is what the check must report about the family. */
  ghost predicate Due(t: Tables, family: string, f: Finding)
    requires family in t.rates
  {
    if Unreferenced(t, family) then f == Missing(t, family)
    else
      exists c :: c in Fields(t.rates[family], t.dataset[RefId(t, family)]) && DueField(family, RefId(t, family), c, f)
  }

  ghost predicate DueField(family: string, refId: string, c: Field, f: Finding) {
    && f == CompareField(family, refId, c.name, c.ours, c.theirs)
    && (FateOf(f, c.ours) == Drifts || FateOf(f, c.ours) == Blind)
  }

  lemma {:induction false} FieldsReported(tally: Tally, family: string, refId: string, fields: seq<Field>, f: Finding)
    ensures f in AddFields(tally, family, refId, fields).findings <==>
              f in tally.findings || exists c :: c in fields && DueField(family, refId, c, f)
    decreases |fields|
  {
    if fields == [] {
    } else {
      var front, last := fields[..|fields| - 1], fields[|fields| - 1];
      FieldsReported(tally, family, refId, front, f);
      assert forall c :: c in fields <==> c in front || c == last by {
        assert fields == front + [last];
      }
      var before := AddFields(tally, family, refId, front);
      assert f in AddFields(tally, family, refId, fields).findings <==>
        f in before.findings || DueField(family, refId, last, f);
    }
  }

  /** The report holds exactly the findings that are due, no more and no fewer. */
  lemma {:induction false} ReportsExactlyWhatIsDue(t: Tables, families: seq<string>, f: Finding)
    requires forall n :: n in families ==> n in t.rates
    ensures f in Total(t, families).findings <==> exists n :: n in families && Due(t, n, f)
    decreases |families|
  {
    if families == [] {
    } else {
      var front, last := families[..|families| - 1], families[|families| - 1];
      ReportsExactlyWhatIsDue(t, front, f);
      assert families == front + [last];
      assert forall n :: n in families <==> n in front || n == last;
      if !Unreferenced(t, last) {
        FieldsReported(Total(t, front), last, RefId(t, last), Fields(t.rates[last], t.dataset[RefId(t, last)]), f);
      }
      assert f in Total(t, families).findings <==> f in Total(t, front).findings || Due(t, last, f);
    }
  }

  // ----- in which order -----

  function FieldRank(name: string): int {
    if name == "input" then 0 else if name == "output" then 1
    else if name == "cache_read" then 2 else if name == "cache_write" then 3 else -1
  }

  /** f is reported before g: by family, and within a family by field. */
  predicate Precedes(f: Finding, g: Finding) {
    if f.family == g.family then FieldRank(f.field) < FieldRank(g.field) else Leq(f.family, g.family)
  }

  ghost predicate InOrder(fs: seq<Finding>) {
    forall i, j :: 0 <= i < j < |fs| ==> Precedes(fs[i], fs[j])
  }

  lemma AppendInOrder(fs: seq<Finding>, g: Finding)
    requires InOrder(fs) && forall f :: f in fs ==> Precedes(f, g)
    ensures InOrder(fs + [g])
  {
  }

  ghost predicate Ranked(fields: seq<Field>) {
    forall i, j :: 0 <= i < j < |fields| ==> FieldRank(fields[i].name) < FieldRank(fields[j].name)
  }

  lemma RankedLast(fields: seq<Field>, c: Field)
    requires Ranked(fields) && fields != [] && c in fields[..|fields| - 1]
    ensures FieldRank(c.name) < FieldRank(fields[|fields| - 1].name)
  {
    var i :| 0 <= i < |fields| - 1 && fields[..|fields| - 1][i] == c;
    assert fields[i] == c;
  }

  /** Whatever an earlier finding is about, it precedes every finding about this family. */
  ghost predicate AllBefore(fs: seq<Finding>, family: string) {
    forall f :: f in fs ==> f.family != family && Leq(f.family, family)
  }

  lemma {:induction false} FieldsInOrder(tally: Tally, family: string, refId: string, fields: seq<Field>)
    requires InOrder(tally.findings) && AllBefore(tally.findings, family) && Ranked(fields)
    ensures InOrder(AddFields(tally, family, refId, fields).findings)
    ensures forall f :: f in AddFields(tally, family, refId, fields).findings ==>
              f in tally.findings || (f.family == family && exists c :: c in fields && c.name == f.field)
    decreases |fields|
  {
    if fields == [] {
    } else {
      var front, last := fields[..|fields| - 1], fields[|fields| - 1];
      FieldsInOrder(tally, family, refId, front);
      var before := AddFields(tally, family, refId, front);
      var g := CompareField(family, refId, last.name, last.ours, last.theirs);
      forall f | f in before.findings ensures Precedes(f, g) {
        if f !in tally.findings {
          var c :| c in front && c.name == f.field;
          RankedLast(fields, c);
        }
      }
      AppendInOrder(before.findings, g);
      assert forall c :: c in front ==> c in fields;
      assert last in fields;
    }
  }

  lemma {:induction false} TotalInOrder(t: Tables, families: seq<string>)
    requires Sorted(families) && Distinct(families) && forall n :: n in families ==> n in t.rates
    ensures InOrder(Total(t, families).findings)
    ensures forall f :: f in Total(t, families).findings ==> f.family in families
    decreases |families|
  {
    if families == [] {
    } else {
      var front, last := families[..|families| - 1], families[|families| - 1];
      TotalInOrder(t, front);
      var before := Total(t, front);
      assert families == front + [last];
      LastIsGreatest(front, last);
      assert AllBefore(before.findings, last);
      if Unreferenced(t, last) {
        AppendInOrder(before.findings, Missing(t, last));
      } else {
        FieldsInOrder(before, last, RefId(t, last), Fields(t.rates[last], t.dataset[RefId(t, last)]));
      }
    }
  }

  // ----- which fields are silent -----

  /** The field has no reference price and we do not price it either. */
  predicate Unpriced(c: Field) {
    (c.theirs.None? || c.theirs.value == 0.0) && c.ours <= 0.0
  }

  /** The fields of these families that a check says nothing about, by family and position. */
  ghost function SilentIn(t: Tables, families: set<string>): set<(string, int)>
    requires forall n :: n in families ==> n in t.rates
  {
    set n, k | n in families && !Unreferenced(t, n) && 0 <= k < 4
               && Unpriced(Fields(t.rates[n], t.dataset[RefId(t, n)])[k]) :: (n, k)
  }

  ghost function Silent(t: Tables): set<(string, int)> {
    SilentIn(t, t.rates.Keys)
  }

  ghost function UnpricedAmong(family: string, fields: seq<Field>): set<(string, int)> {
    set k | 0 <= k < |fields| && Unpriced(fields[k]) :: (family, k)
  }

  lemma {:induction false} FieldsSkipped(tally: Tally, family: string, refId: string, fields: seq<Field>)
    ensures AddFields(tally, family, refId, fields).skipped == tally.skipped + |UnpricedAmong(family, fields)|
    decreases |fields|
  {
    if fields == [] {
      assert UnpricedAmong(family, fields) == {};
    } else {
      var n := |fields| - 1;
      var front, last := fields[..n], fields[n];
      FieldsSkipped(tally, family, refId, front);
      BlindIff(family, refId, last.name, last.ours, last.theirs);
      assert UnpricedAmong(family, fields) ==
        UnpricedAmong(family, front) + (if Unpriced(last) then {(family, n)} else {});
      assert (family, n) !in UnpricedAmong(family, front);
    }
  }

  lemma {:induction false} TotalSkipped(t: Tables, families: seq<string>, names: set<string>)
    requires Lists(families, names) && forall n :: n in families ==> n in t.rates
    ensures Total(t, families).skipped == |SilentIn(t, names)|
    decreases |families|
  {
    if families == [] {
      assert SilentIn(t, names) == {};
    } else {
      var front, last := families[..|families| - 1], families[|families| - 1];
      var rest := names - {last};
      assert families == front + [last];
      assert last !in front by {
        assert forall i :: 0 <= i < |front| ==> front[i] == families[i] != last;
      }
      TotalSkipped(t, front, rest);
      SilentSplits(t, names, last);
      if !Unreferenced(t, last) {
        FieldsSkipped(Total(t, front), last, RefId(t, last), Fields(t.rates[last], t.dataset[RefId(t, last)]));
      }
    }
  }

  lemma SilentSplits(t: Tables, names: set<string>, last: string)
    requires last in names && forall n :: n in names ==> n in t.rates
    ensures |SilentIn(t, names)| == |SilentIn(t, names - {last})|
              + if Unreferenced(t, last) then 0
                else |UnpricedAmong(last, Fields(t.rates[last], t.dataset[RefId(t, last)]))|
  {
    var own := if Unreferenced(t, last) then {}
               else UnpricedAmong(last, Fields(t.rates[last], t.dataset[RefId(t, last)]));
    assert SilentIn(t, names) == SilentIn(t, names - {last}) + own;
    assert SilentIn(t, names - {last}) !! own;
  }

  // ----- the report, from the tables alone -----

  /** b is more than this share of its own size away from a. */
  ghost predicate Apart(a: real, b: real, share: real) {
    var size := if b < 0.0 then -b else b;
    a - b > share * size || b - a > share * size
  }

  /** What a finding about a field must be that the dataset prices at v, and we at ours. */
  ghost predicate Compares(f: Finding, refId: string, ours: real, v: real) {
    && f.refId == refId && f.oursPerMillion == ours * 1_000_000.0 && f.theirsPerMillion == v * 1_000_000.0
    && (f.severity == High <==> Apart(ours, v, 0.1))
    && (f.severity == Warn <==> Apart(ours, v, 0.02) && !Apart(ours, v, 0.1))
    && f.direction == (if ours < v then OursLower else OursHigher)
  }

  /** What it must be when the dataset has no price for the field, or a zero one. */
  ghost predicate CannotCompare(f: Finding, refId: string, ours: real) {
    && f.refId == refId && f.oursPerMillion == ours * 1_000_000.0 && f.theirsPerMillion == 0.0
    && f.severity == NoReference && f.direction == NotApplicable && f.pctDelta == 0.0
  }

  /** What the findings say of one price of a family: with a reference price, one finding if ours is
      more than a fiftieth away from it; without one, one finding if we price the field. */
  ghost predicate Speaks(fs: seq<Finding>, family: string, refId: string, field: string, ours: real,
                         theirs: Option<real>)
  {
    if theirs.Some? && theirs.value != 0.0 then
      && ((exists f :: f in fs && f.family == family && f.field == field) <==> Apart(ours, theirs.value, 0.02))
      && forall f :: f in fs && f.family == family && f.field == field ==> Compares(f, refId, ours, theirs.value)
    else
      && ((exists f :: f in fs && f.family == family && f.field == field) <==> ours > 0.0)
      && forall f :: f in fs && f.family == family && f.field == field ==> CannotCompare(f, refId, ours)
  }

  /** For a referenced family: each of its four prices against the dataset's price of the same name, and
      nothing about the family as a whole. */
  ghost predicate SpeaksOfPrices(fs: seq<Finding>, family: string, refId: string, rate: Rate, entry: Entry) {
    && Speaks(fs, family, refId, "input", rate.input, entry.input)
    && Speaks(fs, family, refId, "output", rate.output, entry.output)
    && Speaks(fs, family, refId, "cache_read", rate.cacheRead, entry.cacheRead)
    && Speaks(fs, family, refId, "cache_write", rate.cacheWrite, entry.cacheWrite)
    && forall f :: f in fs && f.family == family ==> f.field in {"input", "output", "cache_read", "cache_write"}
  }

  /** For another family: one finding about the whole of it and none about its prices. */
  ghost predicate SpeaksOfWhole(fs: seq<Finding>, family: string, refId: string) {
    var whole := Finding(family, refId, "*", 0.0, 0.0, 0.0, NoReference, NotApplicable);
    forall f :: f in fs && f.family == family <==> f == whole
  }

  /** The findings, from the tables, family by family and nothing about any other family. */
  ghost predicate Answers(t: Tables, fs: seq<Finding>) {
    && (forall n :: n in t.rates ==>
          if n in t.refs && t.refs[n] != "" && t.refs[n] in t.dataset
          then SpeaksOfPrices(fs, n, t.refs[n], t.rates[n], t.dataset[t.refs[n]])
          else SpeaksOfWhole(fs, n, if n in t.refs then t.refs[n] else ""))
    && (forall f :: f in fs ==> f.family in t.rates)
  }

  /** The findings about a family are those due for it. */
  lemma AboutFamily(t: Tables, fs: seq<Finding>, n: string, f: Finding)
    requires n in t.rates && forall g :: g in fs <==> exists m :: m in t.rates && Due(t, m, g)
    ensures f in fs && f.family == n <==> Due(t, n, f)
  {
    forall m | m in t.rates && Due(t, m, f) ensures f.family == m {
      DueNames(t, m, f);
    }
  }

  lemma DueNames(t: Tables, n: string, f: Finding)
    requires n in t.rates && Due(t, n, f)
    ensures f.family == n
  {
  }

  lemma FieldSpeaks(fs: seq<Finding>, family: string, refId: string, c: Field, fields: seq<Field>)
    requires forall f :: f in fs && f.family == family <==> exists d :: d in fields && DueField(family, refId, d, f)
    requires c in fields && forall d :: d in fields && d.name == c.name ==> d == c
    ensures Speaks(fs, family, refId, c.name, c.ours, c.theirs)
  {
    var g := CompareField(family, refId, c.name, c.ours, c.theirs);
    BlindIff(family, refId, c.name, c.ours, c.theirs);
    if c.theirs.Some? && c.theirs.value != 0.0 {
      Bands(family, refId, c.name, c.ours, c.theirs.value);
    }
    forall f | f in fs && f.family == family && f.field == c.name ensures f == g && DueField(family, refId, c, g) {
      var d :| d in fields && DueField(family, refId, d, f);
    }
    if DueField(family, refId, c, g) {
      assert g in fs;
    }
  }

  lemma FieldNamed(fs: seq<Finding>, family: string, refId: string, rate: Rate, entry: Entry, f: Finding)
    requires exists d :: d in Fields(rate, entry) && DueField(family, refId, d, f)
    ensures f.field in {"input", "output", "cache_read", "cache_write"}
  {
    var d :| d in Fields(rate, entry) && DueField(family, refId, d, f);
    BlindIff(family, refId, d.name, d.ours, d.theirs);
  }

  lemma FamilyAnswers(fs: seq<Finding>, family: string, refId: string, rate: Rate, entry: Entry)
    requires forall f ::
               f in fs && f.family == family <==> exists d :: d in Fields(rate, entry) && DueField(family, refId, d, f)
    ensures SpeaksOfPrices(fs, family, refId, rate, entry)
  {
    hide Speaks, DueField;
    var fields := Fields(rate, entry);
    forall k | 0 <= k < 4 ensures Speaks(fs, family, refId, fields[k].name, fields[k].ours, fields[k].theirs) {
      assert fields[k] in fields;
      FieldSpeaks(fs, family, refId, fields[k], fields);
    }
    assert fields[0].name == "input" && fields[1].name == "output";
    assert fields[2].name == "cache_read" && fields[3].name == "cache_write";
    forall f | f in fs && f.family == family
      ensures f.field in {"input", "output", "cache_read", "cache_write"}
    {
      FieldNamed(fs, family, refId, rate, entry, f);
    }
  }

  lemma DueFamily(t: Tables, fs: seq<Finding>, n: string)
    requires n in t.rates && forall g :: g in fs <==> exists m :: m in t.rates && Due(t, m, g)
    ensures if n in t.refs && t.refs[n] != "" && t.refs[n] in t.dataset
            then SpeaksOfPrices(fs, n, t.refs[n], t.rates[n], t.dataset[t.refs[n]])
            else SpeaksOfWhole(fs, n, if n in t.refs then t.refs[n] else "")
  {
    hide SpeaksOfPrices, DueField;
    forall f ensures f in fs && f.family == n <==> Due(t, n, f) {
      AboutFamily(t, fs, n, f);
    }
    if !Unreferenced(t, n) {
      FamilyAnswers(fs, n, t.refs[n], t.rates[n], t.dataset[t.refs[n]]);
    }
  }

  lemma DueAnswers(t: Tables, fs: seq<Finding>)
    requires forall g :: g in fs <==> exists n :: n in t.rates && Due(t, n, g)
    ensures Answers(t, fs)
  {
    hide SpeaksOfPrices, SpeaksOfWhole, Due;
    forall n | n in t.rates
      ensures if n in t.refs && t.refs[n] != "" && t.refs[n] in t.dataset
              then SpeaksOfPrices(fs, n, t.refs[n], t.rates[n], t.dataset[t.refs[n]])
              else SpeaksOfWhole(fs, n, if n in t.refs then t.refs[n] else "")
    {
      DueFamily(t, fs, n);
    }
    forall f | f in fs ensures f.family in t.rates {
      var n :| n in t.rates && Due(t, n, f);
      DueNames(t, n, f);
    }
  }

  // ----- the check itself -----

  function WithTally(r: Report, tally: Tally): Report {
    r.(checked := tally.checked, fine := tally.fine, findings := tally.findings)
  }

  /** What a report must be: every field of every family accounted for once; the checked fields that
      are not fine are exactly the drift findings; the findings are exactly those due, each once, by
      family and then by field. */
  ghost predicate Accurate(t: Tables, r: Report) {
    && 4 * |t.rates| ==
         r.checked + 4 * Count(WholeFamily, r.findings) + Count(BlindField, r.findings) + |Silent(t)|
    && r.checked - r.fine == Count(Drifting, r.findings) == Count(Referenced, r.findings)
    && (forall f :: f in r.findings <==> exists n :: n in t.rates && Due(t, n, f))
    && Answers(t, r.findings)
    && InOrder(r.findings)
  }

  lemma TotalIsAccurate(t: Tables, families: seq<string>, r: Report)
    requires Sorted(families) && Lists(families, t.rates.Keys) && r == WithTally(r, Total(t, families))
    ensures Accurate(t, r)
  {
    hide Count, Total, Due, Sorted, NoneFine, InOrder, SilentIn, Answers;
    EveryFieldIsAccountedFor(t, families);
    ListsCount(families, t.rates.Keys);
    TotalSkipped(t, families, t.rates.Keys);
    NoFineFindings(r.findings);
    TotalInOrder(t, families);
    forall f ensures f in r.findings <==> exists n :: n in t.rates && Due(t, n, f) {
      ReportsExactlyWhatIsDue(t, families, f);
    }
    DueAnswers(t, r.findings);
  }

  /** CheckDrift. `order` is the order in which the runtime happens to iterate the rate table. The
      report is the one any sorted listing of the families leads to, so it does not depend on it. */
  method CheckDrift(rates: map<string, Rate>, refs: map<string, string>, parsed: Option<map<string, Entry>>,
                    order: seq<string>, sourceSha: string, generatedAt: string, asOf: string)
    returns (r: Result<Report, ParseError>)
    requires Lists(order, rates.Keys)
    ensures r.Err? <==> parsed.None?
    ensures r.Ok? ==> Accurate(Tables(rates, refs, parsed.value), r.value)
    ensures r.Ok? ==>
              r.value.sourceSha == sourceSha && r.value.generatedAt == generatedAt && r.value.pricingAsOf == asOf
    ensures r.Ok? ==> forall families :: Sorted(families) && Lists(families, rates.Keys) ==>
              r.value == WithTally(r.value, Total(Tables(rates, refs, parsed.value), families))
  {
    if parsed.None? {
      return Err(Unparseable);
    }
    var t := Tables(rates, refs, parsed.value);
    var families := SortNames(order, rates.Keys);
    var report := Report(sourceSha, generatedAt, asOf, 0, 0, []);
    ghost var blank := report;
    for i := 0 to |families|
      invariant forall f :: f in families[..i] ==> f in rates
      invariant report == WithTally(blank, Total(t, families[..i]))
    {
      assert families[..i + 1][..i] == families[..i];
      assert families[i] in families;
      report := CheckFamily(t, report, families[i], Total(t, families[..i]));
    }
    assert families[..|families|] == families;
    r := Ok(report);
    TotalIsAccurate(t, families, report);
    forall other | Sorted(other) && Lists(other, rates.Keys) ensures other == families {
      SortedListingUnique(other, families, rates.Keys);
    }
  }

  /** The body of the outer loop. */
  method CheckFamily(t: Tables, before: Report, family: string, ghost tally: Tally) returns (report: Report)
    requires family in t.rates && before == WithTally(before, tally)
    ensures report == WithTally(before, AddFamily(t, tally, family))
  {
    report := before;
    var refId := RefId(t, family);
    if refId == "" || refId !in t.dataset {
      return report.(findings := report.findings + [Missing(t, family)]);
    }
    var fields := Fields(t.rates[family], t.dataset[refId]);
    for j := 0 to |fields|
      invariant report == WithTally(before, AddFields(tally, family, refId, fields[..j]))
    {
      assert fields[..j + 1][..j] == fields[..j];
      var fc := fields[j];
      var f := CompareField(family, refId, fc.name, fc.ours, fc.theirs);
      match f.severity {
        case Fine =>
          report := report.(checked := report.checked + 1, fine := report.fine + 1);
        case NoReference =>
          if fc.ours > 0.0 {
            report := report.(findings := report.findings + [f]);
          }
        case _ =>
          report := report.(checked := report.checked + 1, findings := report.findings + [f]);
      }
    }
    assert fields[..|fields|] == fields;
  }

  // ----- reading a report -----

  method HighSeverity(r: Report) returns (high: bool)
    ensures high <==> exists i :: 0 <= i < |r.findings| && r.findings[i].severity == High
  {
    for i := 0 to |r.findings|
      invariant forall j :: 0 <= j < i ==> r.findings[j].severity != High
    {
      if r.findings[i].severity == High {
        return true;
      }
    }
    return false;
  }

  method HasDrift(r: Report) returns (drift: bool)
    ensures drift <==> exists i :: 0 <= i < |r.findings| && IsDrift(r.findings[i])
  {
    for i := 0 to |r.findings|
      invariant forall j :: 0 <= j < i ==> !IsDrift(r.findings[j])
    {
      if r.findings[i].severity == Warn || r.findings[i].severity == High {
        return true;
      }
    }
    return false;
  }

  datatype Verdict = NoDrift | HighDrift | WarnDrift | Unverifiable(fields: nat)

  /** The counting and the verdict line of Markdown, for any report. */
  method JudgeReport(r: Report) returns (verdict: Verdict, driftFindings: nat, noRef: nat)
    ensures driftFindings == Count(Referenced, r.findings) && driftFindings + noRef == |r.findings|
    ensures verdict == HighDrift <==> exists i :: 0 <= i < |r.findings| && r.findings[i].severity == High
    ensures verdict == WarnDrift <==> verdict != HighDrift && driftFindings > 0
    ensures verdict == NoDrift <==> r.findings == []
    ensures verdict.Unverifiable? ==> verdict.fields == noRef == |r.findings| > 0
  {
    driftFindings, noRef := 0, 0;
    for i := 0 to |r.findings|
      invariant driftFindings == Count(Referenced, r.findings[..i]) && driftFindings + noRef == i
    {
      assert r.findings[..i + 1][..i] == r.findings[..i];
      if r.findings[i].severity == NoReference {
        noRef := noRef + 1;
      } else {
        driftFindings := driftFindings + 1;
      }
    }
    assert r.findings[..|r.findings|] == r.findings;
    CountPositive(Referenced, r.findings);
    var high := HighSeverity(r);
    if high {
      verdict := HighDrift;
    } else if driftFindings > 0 {
      verdict := WarnDrift;
    } else if noRef > 0 {
      verdict := Unverifiable(noRef);
    } else {
      verdict := NoDrift;
    }
  }

  lemma {:induction false} CountPositive(kind: Kind, fs: seq<Finding>)
    ensures Count(kind, fs) > 0 <==> exists i :: 0 <= i < |fs| && Is(kind, fs[i])
    decreases |fs|
  {
    if fs == [] {
    } else {
      var front := fs[..|fs| - 1];
      CountPositive(kind, front);
      assert forall i :: 0 <= i < |front| ==> front[i] == fs[i];
    }
  }

  lemma {:induction false} NoFineFindings(fs: seq<Finding>)
    requires NoneFine(fs)
    ensures Count(Referenced, fs) == Count(Drifting, fs)
    decreases |fs|
  {
    if fs == [] {
    } else {
      NoFineFindings(fs[..|fs| - 1]);
    }
  }

  /** An accurate report shows drift exactly when some checked field is not fine. */
  lemma DriftIffNotAllFine(t: Tables, r: Report)
    requires Accurate(t, r)
    ensures r.fine < r.checked <==> exists i :: 0 <= i < |r.findings| && IsDrift(r.findings[i])
  {
    CountPositive(Drifting, r.findings);
  }

  datatype Outcome = Outcome(report: Report, verdict: Verdict, high: bool, drift: bool, any: bool)

  /** The daily job: check, judge, and publish the three flags. For every table and dataset the drift
      flag and a warn or high verdict are raised exactly when some checked field is not fine. */
  method RunCheck(rates: map<string, Rate>, refs: map<string, string>, parsed: Option<map<string, Entry>>,
                  order: seq<string>, sourceSha: string, generatedAt: string, asOf: string)
    returns (r: Result<Outcome, ParseError>)
    requires Lists(order, rates.Keys)
    ensures r.Err? <==> parsed.None?
    ensures r.Ok? ==>
              var Outcome(report, verdict, high, drift, any) := r.value;
              && Accurate(Tables(rates, refs, parsed.value), report)
              && (drift <==> report.fine < report.checked)
              && (verdict == HighDrift || verdict == WarnDrift <==> report.fine < report.checked)
              && (verdict == HighDrift <==> high)
              && (any <==> verdict != NoDrift)
              && (verdict.Unverifiable? ==> report.fine == report.checked && verdict.fields == |report.findings|)
  {
    var checked := CheckDrift(rates, refs, parsed, order, sourceSha, generatedAt, asOf);
    if checked.Err? {
      return Err(checked.error);
    }
    var report := checked.value;
    var verdict, driftFindings, noRef := JudgeReport(report);
    var high := HighSeverity(report);
    var drift := HasDrift(report);
    DriftIffNotAllFine(Tables(rates, refs, parsed.value), report);
    CountPositive(Drifting, report.findings);
    return Ok(Outcome(report, verdict, high, drift, report.findings != []));
  }
}
