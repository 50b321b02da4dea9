/** The Prometheus text exposition line `name{k="v",...} value[ timestamp]`
    that the fleet simulator, the mock exporter and the collector's metric
    record all write, a reader that takes such a line apart again, and the
    newline-terminated payload that carries many lines. */
module Exposition {
  import opened Wrappers
  import opened Text

  datatype Label = Label(key: string, value: string)

  /** One exposition line before it is written out: the value and the
      optional timestamp are already text. */
  datatype Sample = Sample(name: string, labels: seq<Label>, value: string, timestamp: Option<string>)

  /** `k="v"`. */
  function LabelText(l: Label): string
  {
    l.key + ['='] + Quoted(l.value)
  }

  function Quoted(v: string): string
  {
    "\"" + v + "\""
  }

  function LabelTexts(ls: seq<Label>): (ts: seq<string>)
    ensures |ts| == |ls|
    ensures forall i :: 0 <= i < |ls| ==> ts[i] == LabelText(ls[i])
  {
    if ls == [] then [] else [LabelText(ls[0])] + LabelTexts(ls[1..])
  }

  /** The label segment: every label as `k="v"`, in order, joined by commas
      with no spaces. */
  function LabelsText(ls: seq<Label>): string
  {
    Join(LabelTexts(ls), ',')
  }

  /** What follows the value: a space and the timestamp, or nothing. */
  function TimestampText(ts: Option<string>): string
  {
    match ts
    case Some(t) => " " + t
    case None => ""
  }

  /** `name{labels} value`, then the timestamp part: the line starts with
      the name and the opening brace and ends with a space, the value and
      the timestamp part. */
  function Render(s: Sample): (line: string)
    ensures s.name + ['{'] <= line
    ensures EndsWith(line, " " + s.value + TimestampText(s.timestamp))
  {
    var tail := " " + (s.value + TimestampText(s.timestamp));
    assert " " + s.value + TimestampText(s.timestamp) == tail;
    assert s.name + ['{'] + Body(s.labels, s.value, s.timestamp) == s.name + ['{'] + (LabelsText(s.labels) + ['}']) + tail;
    s.name + ['{'] + Body(s.labels, s.value, s.timestamp)
  }

  /** `t` is the last part of `s`. */
  predicate EndsWith(s: string, t: string)
  {
    |t| <= |s| && s[|s| - |t|..] == t
  }

  /** What follows the `{` of a line. */
  function Body(ls: seq<Label>, value: string, ts: Option<string>): string
  {
    LabelsText(ls) + ['}'] + (" " + (value + TimestampText(ts)))
  }

  function RenderAll(ss: seq<Sample>): (lines: seq<string>)
    ensures |lines| == |ss|
    ensures forall i :: 0 <= i < |ss| ==> lines[i] == Render(ss[i])
  {
    if ss == [] then [] else [Render(ss[0])] + RenderAll(ss[1..])
  }

  /** Rendering a concatenation renders each part in turn. */
  lemma RenderAllAppend(a: seq<Sample>, b: seq<Sample>)
    ensures RenderAll(a + b) == RenderAll(a) + RenderAll(b)
  {
    var l, r := RenderAll(a + b), RenderAll(a) + RenderAll(b);
    assert |l| == |r|;
    forall i | 0 <= i < |l| ensures l[i] == r[i] {
      if i < |a| {
        assert (a + b)[i] == a[i];
      } else {
        assert (a + b)[i] == b[i - |a|];
      }
    }
  }

  /** The newline-joined lines with a trailing newline. */
  function Payload(lines: seq<string>): string
  {
    Join(lines, '\n') + "\n"
  }

  /** No two labels of a line share a key. */
  predicate DistinctKeys(ls: seq<Label>)
  {
    forall i, j :: 0 <= i < j < |ls| ==> ls[i].key != ls[j].key
  }

  /** Every line of `ss` has distinct label keys. */
  predicate AllDistinctKeys(ss: seq<Sample>)
  {
    forall i :: 0 <= i < |ss| ==> DistinctKeys(ss[i].labels)
  }

  /** Two label lists with distinct keys and no key in common join into one
      with distinct keys. */
  lemma DistinctKeysAppend(a: seq<Label>, b: seq<Label>)
    requires DistinctKeys(a) && DistinctKeys(b)
    requires forall i, j :: 0 <= i < |a| && 0 <= j < |b| ==> a[i].key != b[j].key
    ensures DistinctKeys(a + b)
  {
    forall i, j | 0 <= i < j < |a + b| ensures (a + b)[i].key != (a + b)[j].key {
      if j < |a| {
        assert (a + b)[i] == a[i] && (a + b)[j] == a[j];
      } else if i < |a| {
        assert (a + b)[i] == a[i] && (a + b)[j] == b[j - |a|];
      } else {
        assert (a + b)[i] == b[i - |a|] && (a + b)[j] == b[j - |a|];
      }
    }
  }

  lemma AllDistinctKeysAppend(a: seq<Sample>, b: seq<Sample>)
    requires AllDistinctKeys(a) && AllDistinctKeys(b)
    ensures AllDistinctKeys(a + b)
  {
    forall i | 0 <= i < |a + b| ensures DistinctKeys((a + b)[i].labels) {
      if i >= |a| {
        assert (a + b)[i] == b[i - |a|];
      }
    }
  }

  /** A label the reader can take back: the key holds no `=`, and neither
      part holds a comma, a closing brace or a newline. */
  predicate CleanLabel(l: Label)
  {
    '=' !in l.key && ',' !in l.key && '}' !in l.key && '\n' !in l.key
    && ',' !in l.value && '}' !in l.value && '\n' !in l.value
  }

  predicate CleanLabels(ls: seq<Label>)
  {
    forall i :: 0 <= i < |ls| ==> CleanLabel(ls[i])
  }

  lemma CleanLabelsAppend(a: seq<Label>, b: seq<Label>)
    requires CleanLabels(a) && CleanLabels(b)
    ensures CleanLabels(a + b)
  {
    forall i | 0 <= i < |a + b| ensures CleanLabel((a + b)[i]) {
      if i >= |a| {
        assert (a + b)[i] == b[i - |a|];
      }
    }
  }

  /** A sample the reader can take back: the name holds no `{`, the value no
      space, and nothing holds a newline. */
  predicate WellFormed(s: Sample)
  {
    '{' !in s.name && '\n' !in s.name
    && CleanLabels(s.labels)
    && ' ' !in s.value && '\n' !in s.value
    && (s.timestamp.Some? ==> '\n' !in s.timestamp.value)
  }

  function ParseLabel(piece: string): Option<Label>
  {
    var k := IndexOf(piece, '=');
    if k == |piece| then None
    else
      var r := piece[k + 1..];
      if |r| >= 2 && r[0] == '"' && r[|r| - 1] == '"' then Some(Label(piece[..k], r[1..|r| - 1]))
      else None
  }

  function ParseLabelList(pieces: seq<string>): Option<seq<Label>>
  {
    if pieces == [] then Some([])
    else
      match (ParseLabel(pieces[0]), ParseLabelList(pieces[1..]))
      case (Some(l), Some(ls)) => Some([l] + ls)
      case _ => None
  }

  function ParseLabels(text: string): Option<seq<Label>>
  {
    if text == "" then Some([]) else ParseLabelList(Split(text, ','))
  }

  /** Reads an exposition line: the name up to `{`, then the rest. */
  function ParseLine(line: string): Option<Sample>
  {
    var i := IndexOf(line, '{');
    if i == |line| then None
    else
      match ParseBody(line[i + 1..])
      case Some((ls, value, ts)) => Some(Sample(line[..i], ls, value, ts))
      case None => None
  }

  /** Reads what follows the `{`: the labels up to `}`, a space, then the
      value and the timestamp. */
  function ParseBody(rest: string): Option<(seq<Label>, string, Option<string>)>
  {
    var j := IndexOf(rest, '}');
    if j + 1 >= |rest| || rest[j + 1] != ' ' then None
    else
      match ParseLabels(rest[..j])
      case Some(ls) => Some((ls, ParseValue(rest[j + 2..]).0, ParseValue(rest[j + 2..]).1))
      case None => None
  }

  /** The value up to the first space, and what follows that space as the
      timestamp when there is one. */
  function ParseValue(vt: string): (string, Option<string>)
  {
    var k := IndexOf(vt, ' ');
    (vt[..k], if k == |vt| then None else Some(vt[k + 1..]))
  }

  lemma LabelTextClean(l: Label)
    requires CleanLabel(l)
    ensures ',' !in LabelText(l) && '}' !in LabelText(l) && '\n' !in LabelText(l)
    ensures |LabelText(l)| >= 3
  {
  }

  lemma LabelsTextClean(ls: seq<Label>)
    requires CleanLabels(ls)
    ensures '}' !in LabelsText(ls) && '\n' !in LabelsText(ls)
  {
    var ts := LabelTexts(ls);
    forall k | 0 <= k < |ts| ensures '}' !in ts[k] && '\n' !in ts[k] {
      LabelTextClean(ls[k]);
    }
    JoinExcludes(ts, ',', '}');
    JoinExcludes(ts, ',', '\n');
  }

  lemma ParseLabelOf(piece: string, l: Label)
    requires CleanLabel(l) && piece == LabelText(l)
    ensures ParseLabel(piece) == Some(l)
  {
    var r := Quoted(l.value);
    SplitAtFirst(piece, l.key, '=', r);
    assert r[1..|r| - 1] == l.value;
  }

  lemma {:induction false} ParseLabelListOf(pieces: seq<string>, ls: seq<Label>)
    requires CleanLabels(ls) && pieces == LabelTexts(ls)
    ensures ParseLabelList(pieces) == Some(ls)
  {
    if ls != [] {
      ParseLabelOf(pieces[0], ls[0]);
      assert pieces[1..] == LabelTexts(ls[1..]);
      ParseLabelListOf(pieces[1..], ls[1..]);
      assert ls == [ls[0]] + ls[1..];
    }
  }

  /** The label segment reads back as the labels it was written from. */
  lemma ParseLabelsOf(text: string, ls: seq<Label>)
    requires CleanLabels(ls) && text == LabelsText(ls)
    ensures ParseLabels(text) == Some(ls)
  {
    if ls != [] {
      var ts := LabelTexts(ls);
      LabelTextClean(ls[0]);
      assert |text| >= |ts[0]|;
      forall k | 0 <= k < |ts| ensures ',' !in ts[k] {
        LabelTextClean(ls[k]);
      }
      SplitJoin(ts, ',');
      ParseLabelListOf(ts, ls);
    }
  }

  /** The value text and the timestamp part come apart at the first space. */
  lemma ParseTail(vt: string, value: string, ts: Option<string>)
    requires ' ' !in value && vt == value + TimestampText(ts)
    ensures ParseValue(vt) == (value, ts)
  {
    match ts
    case Some(t) =>
      SplitAtFirst(vt, value, ' ', t);
    case None =>
      assert vt == value;
  }

  lemma ParseBodyOf(rest: string, s: Sample)
    requires WellFormed(s)
    requires rest == Body(s.labels, s.value, s.timestamp)
    ensures ParseBody(rest) == Some((s.labels, s.value, s.timestamp))
  {
    var lt := LabelsText(s.labels);
    var tail := s.value + TimestampText(s.timestamp);
    LabelsTextClean(s.labels);
    SplitAtFirst(rest, lt, '}', " " + tail);
    assert rest[|lt| + 2..] == tail;
    ParseLabelsOf(lt, s.labels);
    ParseTail(tail, s.value, s.timestamp);
  }

  /** A well-formed sample is read back from its line exactly. */
  lemma ParseRender(line: string, s: Sample)
    requires WellFormed(s) && line == Render(s)
    ensures ParseLine(line) == Some(s)
  {
    var rest := Body(s.labels, s.value, s.timestamp);
    SplitAtFirst(line, s.name, '{', rest);
    ParseBodyOf(rest, s);
  }

  /** Two well-formed samples with the same line are the same sample. */
  lemma RenderInjective(a: Sample, b: Sample)
    requires WellFormed(a) && WellFormed(b) && Render(a) == Render(b)
    ensures a == b
  {
    ParseRender(Render(a), a);
    ParseRender(Render(b), b);
  }

  /** The label segment of a line has one comma-separated entry per label. */
  lemma LabelEntries(ls: seq<Label>)
    requires |ls| >= 1 && CleanLabels(ls)
    ensures Split(LabelsText(ls), ',') == LabelTexts(ls)
    ensures |Split(LabelsText(ls), ',')| == |ls|
  {
    var ts := LabelTexts(ls);
    forall k | 0 <= k < |ts| ensures ',' !in ts[k] {
      LabelTextClean(ls[k]);
    }
    SplitJoin(ts, ',');
  }

  /** Every sample of `ss` is one the reader can take back. */
  predicate AllWellFormed(ss: seq<Sample>)
  {
    forall i :: 0 <= i < |ss| ==> WellFormed(ss[i])
  }

  lemma AllWellFormedAppend(a: seq<Sample>, b: seq<Sample>)
    requires AllWellFormed(a) && AllWellFormed(b)
    ensures AllWellFormed(a + b)
  {
    forall i | 0 <= i < |a + b| ensures WellFormed((a + b)[i]) {
      if i >= |a| {
        assert (a + b)[i] == b[i - |a|];
      }
    }
  }

  lemma RenderNoNewline(s: Sample)
    requires WellFormed(s)
    ensures '\n' !in Render(s)
  {
    LabelsTextClean(s.labels);
  }

  /** Splitting a payload on newlines gives its lines and one empty tail. */
  lemma PayloadLines(lines: seq<string>)
    requires |lines| >= 1
    requires forall k :: 0 <= k < |lines| ==> '\n' !in lines[k]
    ensures Split(Payload(lines), '\n') == lines + [""]
  {
    JoinAppend(lines, "", '\n');
    assert Join(lines + [""], '\n') == Payload(lines);
    SplitJoin(lines + [""], '\n');
  }

  /** The payload of rendered well-formed samples splits back into one line per sample. */
  lemma PayloadOfSamples(ss: seq<Sample>)
    requires |ss| >= 1
    requires forall i :: 0 <= i < |ss| ==> WellFormed(ss[i])
    ensures Split(Payload(RenderAll(ss)), '\n') == RenderAll(ss) + [""]
  {
    var lines := RenderAll(ss);
    forall k | 0 <= k < |lines| ensures '\n' !in lines[k] {
      RenderNoNewline(ss[k]);
    }
    PayloadLines(lines);
  }
}
