/** The collector's provider-neutral metric record and its exposition line:
    the labels sorted by key, the value as Python's `str(float)` writes it,
    and the timestamp only when it is truthy. How a float is written is a
    parameter `show`. */
module CollectorMetric {
  import opened Wrappers
  import opened Text
  import opened Numerals
  import opened Exposition

  /** `Metric`: the labels dict is kept as its items in insertion order. */
  datatype Metric = Metric(name: string, value: real, labels: seq<Label>, timestampMs: Option<int>)

  // ---------------------------------------------------------------------
  // The order `sorted` uses on the label items
  // ---------------------------------------------------------------------

  /** Python's `<` on str: code point by code point, a proper prefix first. */
  predicate StrLess(a: string, b: string)
  {
    if a == [] then b != []
    else if b == [] then false
    else if a[0] != b[0] then a[0] < b[0]
    else StrLess(a[1..], b[1..])
  }

  lemma {:induction false} StrLessIrreflexive(a: string)
    ensures !StrLess(a, a)
  {
    if a != [] {
      StrLessIrreflexive(a[1..]);
    }
  }

  lemma {:induction false} StrLessTransitive(a: string, b: string, c: string)
    requires StrLess(a, b) && StrLess(b, c)
    ensures StrLess(a, c)
  {
    if a != [] && a[0] == b[0] && b[0] == c[0] {
      StrLessTransitive(a[1..], b[1..], c[1..]);
    }
  }

  /** Two different strings are ordered one way or the other. */
  lemma {:induction false} StrLessTotal(a: string, b: string)
    requires a != b
    ensures StrLess(a, b) || StrLess(b, a)
  {
    if a != [] && b != [] && a[0] == b[0] {
      assert a == [a[0]] + a[1..] && b == [b[0]] + b[1..];
      StrLessTotal(a[1..], b[1..]);
    }
  }

  /** The order of `(key, value)` tuples: by key, then by value. */
  predicate LabelLess(a: Label, b: Label)
  {
    StrLess(a.key, b.key) || (a.key == b.key && StrLess(a.value, b.value))
  }

  predicate LabelLeq(a: Label, b: Label)
  {
    !LabelLess(b, a)
  }

  lemma LabelLessIrreflexive(a: Label)
    ensures !LabelLess(a, a)
  {
    StrLessIrreflexive(a.key);
    StrLessIrreflexive(a.value);
  }

  lemma LabelLessTransitive(a: Label, b: Label, c: Label)
    requires LabelLess(a, b) && LabelLess(b, c)
    ensures LabelLess(a, c)
  {
    if StrLess(a.key, b.key) && StrLess(b.key, c.key) {
      StrLessTransitive(a.key, b.key, c.key);
    } else if a.key == b.key && b.key == c.key {
      StrLessTransitive(a.value, b.value, c.value);
    }
  }

  /** Two different labels are ordered one way or the other. */
  lemma LabelLessTotal(a: Label, b: Label)
    requires a != b
    ensures LabelLess(a, b) || LabelLess(b, a)
  {
    if a.key != b.key {
      StrLessTotal(a.key, b.key);
    } else {
      StrLessTotal(a.value, b.value);
    }
  }

  lemma LabelLeqTransitive(a: Label, b: Label, c: Label)
    requires LabelLeq(a, b) && LabelLeq(b, c)
    ensures LabelLeq(a, c)
  {
    if LabelLess(c, a) {
      if a == b {
      } else {
        LabelLessTotal(a, b);
        LabelLessTransitive(c, a, b);
      }
    }
  }

  lemma LabelLessAsymmetric(a: Label, b: Label)
    requires LabelLess(a, b)
    ensures !LabelLess(b, a)
  {
    if LabelLess(b, a) {
      LabelLessTransitive(a, b, a);
      LabelLessIrreflexive(a);
    }
  }

  // ---------------------------------------------------------------------
  // `sorted(self.labels.items())`
  // ---------------------------------------------------------------------

  predicate Sorted(ls: seq<Label>)
  {
    forall i, j :: 0 <= i < j < |ls| ==> LabelLeq(ls[i], ls[j])
  }

  /** `l` put in front of the first item of the sorted `s` it does not follow. */
  function Insert(l: Label, s: seq<Label>): (r: seq<Label>)
    requires Sorted(s)
    ensures multiset(r) == multiset(s) + multiset{l}
    ensures Sorted(r)
  {
    if s == [] then [l]
    else if LabelLess(s[0], l) then
      var rest := Insert(l, s[1..]);
      InsertAfter(s[0], l, s[1..], rest);
      assert s == [s[0]] + s[1..];
      [s[0]] + rest
    else
      InsertBefore(l, s);
      [l] + s
  }

  /** Putting `l` in front of `s` keeps order when `l` does not follow `s[0]`. */
  lemma InsertBefore(l: Label, s: seq<Label>)
    requires Sorted(s) && s != [] && !LabelLess(s[0], l)
    ensures Sorted([l] + s)
  {
    var r := [l] + s;
    forall i, j | 0 <= i < j < |r| ensures LabelLeq(r[i], r[j]) {
      if i == 0 {
        if j > 1 {
          LabelLeqTransitive(l, s[0], s[j - 1]);
        }
      }
    }
  }

  /** The head of a sorted sequence comes no later than any of its items. */
  lemma HeadFirst(s: seq<Label>, x: Label)
    requires Sorted(s) && x in multiset(s)
    ensures s != [] && LabelLeq(s[0], x)
  {
    var k :| 0 <= k < |s| && s[k] == x;
    if k == 0 {
      LabelLessIrreflexive(x);
    }
  }

  /** `s0` in front of a sorted `rest` holding `l` and items that follow `s0`. */
  lemma InsertAfter(s0: Label, l: Label, tail: seq<Label>, rest: seq<Label>)
    requires Sorted([s0] + tail) && LabelLess(s0, l)
    requires Sorted(rest) && multiset(rest) == multiset(tail) + multiset{l}
    ensures Sorted([s0] + rest)
  {
    var r := [s0] + rest;
    forall i, j | 0 <= i < j < |r| ensures LabelLeq(r[i], r[j]) {
      if i == 0 {
        var x := rest[j - 1];
        assert x in multiset(rest);
        if x == l {
          LabelLessAsymmetric(s0, l);
        } else {
          assert x in multiset([s0] + tail);
          HeadFirst([s0] + tail, x);
        }
      }
    }
  }

  /** `sorted`: the same items, in `(key, value)` order. */
  function SortLabels(ls: seq<Label>): (r: seq<Label>)
    ensures multiset(r) == multiset(ls)
    ensures Sorted(r)
  {
    if ls == [] then []
    else
      assert ls == [ls[0]] + ls[1..];
      Insert(ls[0], SortLabels(ls[1..]))
  }

  lemma SortedTail(s: seq<Label>)
    requires Sorted(s) && s != []
    ensures Sorted(s[1..])
  {
    forall i, j | 0 <= i < j < |s| - 1 ensures LabelLeq(s[1..][i], s[1..][j]) {
      assert LabelLeq(s[i + 1], s[j + 1]);
    }
  }

  /** Two sorted sequences of the same items are the same sequence. */
  lemma {:induction false} SortedUnique(a: seq<Label>, b: seq<Label>)
    requires Sorted(a) && Sorted(b) && multiset(a) == multiset(b)
    ensures a == b
  {
    if a == [] {
      assert |b| == |multiset(b)| == 0;
    } else {
      assert a[0] in multiset(b) && b != [] && b[0] in multiset(a);
      HeadFirst(b, a[0]);
      HeadFirst(a, b[0]);
      assert a[0] == b[0] by {
        if a[0] != b[0] {
          LabelLessTotal(a[0], b[0]);
        }
      }
      assert a == [a[0]] + a[1..] && b == [b[0]] + b[1..];
      assert multiset(a[1..]) == multiset(a) - multiset{a[0]};
      assert multiset(b[1..]) == multiset(b) - multiset{b[0]};
      SortedTail(a);
      SortedTail(b);
      SortedUnique(a[1..], b[1..]);
    }
  }

  // ---------------------------------------------------------------------
  // `to_prometheus_line`
  // ---------------------------------------------------------------------

  /** The timestamp part: present only when `timestamp_ms` is truthy, so
      both `None` and `0` leave it out. */
  function TimestampOf(ts: Option<int>): Option<string>
  {
    match ts
    case Some(t) => if t != 0 then Some(IntToString(t)) else None
    case None => None
  }

  /** `Metric.to_prometheus_line`: `name{k="v",...} value[ ts]` with the
      labels in sorted order. */
  function ToPrometheusLine(m: Metric, show: real -> string): (line: string)
    ensures m.name + ['{'] <= line
    ensures m.timestampMs == None || m.timestampMs == Some(0) ==> EndsWith(line, " " + show(m.value))
  {
    assert " " + show(m.value) + TimestampText(None) == " " + show(m.value);
    Render(Sample(m.name, SortLabels(m.labels), show(m.value), TimestampOf(m.timestampMs)))
  }

  /** The line does not depend on the order the labels were inserted in. */
  lemma LineOrderIndependent(m1: Metric, m2: Metric, show: real -> string)
    requires m1.name == m2.name && m1.value == m2.value && m1.timestampMs == m2.timestampMs
    requires multiset(m1.labels) == multiset(m2.labels)
    ensures ToPrometheusLine(m1, show) == ToPrometheusLine(m2, show)
  {
    SortedUnique(SortLabels(m1.labels), SortLabels(m2.labels));
  }

  /** A metric whose parts the exposition format can carry: the name holds
      no `{`, the labels no separator, the written value no space, and
      nothing a newline. */
  predicate Writable(m: Metric, show: real -> string)
  {
    '{' !in m.name && '\n' !in m.name && CleanLabels(m.labels)
    && ' ' !in show(m.value) && '\n' !in show(m.value)
  }

  lemma CleanPermutation(a: seq<Label>, b: seq<Label>)
    requires CleanLabels(a) && multiset(a) == multiset(b)
    ensures CleanLabels(b)
  {
    forall k | 0 <= k < |b| ensures CleanLabel(b[k]) {
      assert b[k] in multiset(a);
      var i :| 0 <= i < |a| && a[i] == b[k];
    }
  }

  /** Reading the line back gives the name, every label exactly once in
      sorted order, the written value, and a timestamp exactly when
      `timestamp_ms` is neither `None` nor `0`, reading as that number. */
  lemma LineReadsBack(m: Metric, show: real -> string)
    requires Writable(m, show)
    ensures var p := ParseLine(ToPrometheusLine(m, show));
      && p.Some?
      && p.value.name == m.name
      && Sorted(p.value.labels) && multiset(p.value.labels) == multiset(m.labels)
      && p.value.value == show(m.value)
      && (p.value.timestamp.Some? <==> m.timestampMs.Some? && m.timestampMs.value != 0)
      && (p.value.timestamp.Some? ==> ParseInt(p.value.timestamp.value) == m.timestampMs)
  {
    var s := Sample(m.name, SortLabels(m.labels), show(m.value), TimestampOf(m.timestampMs));
    CleanPermutation(m.labels, s.labels);
    if m.timestampMs.Some? && m.timestampMs.value != 0 {
      IntToStringRoundTrip(m.timestampMs.value);
      IntToStringNumber(m.timestampMs.value);
      assert '\n' !in IntToString(m.timestampMs.value) by {
        var t := IntToString(m.timestampMs.value);
        forall i | 0 <= i < |t| ensures t[i] != '\n' { }
      }
    }
    ParseRender(ToPrometheusLine(m, show), s);
  }

  /** Between the braces there is one comma-separated `k="v"` entry per
      label. */
  lemma LabelSegmentEntries(m: Metric)
    requires |m.labels| >= 1 && CleanLabels(m.labels)
    ensures |Split(LabelsText(SortLabels(m.labels)), ',')| == |m.labels|
    ensures Split(LabelsText(SortLabels(m.labels)), ',') == LabelTexts(SortLabels(m.labels))
  {
    var sorted := SortLabels(m.labels);
    assert |sorted| == |multiset(sorted)| == |multiset(m.labels)| == |m.labels|;
    CleanPermutation(m.labels, sorted);
    LabelEntries(sorted);
  }

  /** With the dataclass defaults, no labels and no timestamp, the line is
      `name{} value`. */
  lemma DefaultLine(name: string, value: real, show: real -> string)
    ensures ToPrometheusLine(Metric(name, value, [], None), show) == name + "{} " + show(value)
  {
    assert LabelsText([]) == "";
  }

  /** A zero timestamp is left out just as a missing one is. */
  lemma ZeroTimestampOmitted(m: Metric, show: real -> string)
    requires m.timestampMs == Some(0)
    ensures ToPrometheusLine(m, show) == ToPrometheusLine(m.(timestampMs := None), show)
  {
  }
}
