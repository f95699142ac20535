/** The ranges the YAML viewer marks: src/components/yamlCodeViewerExtensions.ts. */
module YamlDecorations {
  import opened Wrappers
  import opened Text

  datatype Kind = StringValue | NumberValue | BoolValue

  /** What a range marks; a scalar's class is that of ScalarKind for its text. */
  datatype Mark = Indent(level: nat) | Scalar(value: string)

  datatype Range = Range(from: nat, to: nat, mark: Mark)

  const INDENT_DEPTH_CLASS_COUNT: nat := 6

  // ---------------------------------------------------------------- ordered ranges

  /** Non-empty ranges, each ending before the next begins: what RangeSetBuilder accepts without overlap. */
  predicate Ordered(rs: seq<Range>) {
    && (forall i :: 0 <= i < |rs| ==> rs[i].from < rs[i].to)
    && (forall i, j :: 0 <= i < j < |rs| ==> rs[i].to <= rs[j].from)
  }

  predicate Within(rs: seq<Range>, from: nat, to: nat) {
    forall i :: 0 <= i < |rs| ==> from <= rs[i].from && rs[i].to <= to
  }

  /** The ranges cover the stretch without gap or overlap. */
  predicate Tiles(rs: seq<Range>, from: nat, to: nat) {
    if rs == [] then from == to else rs[0].from == from < rs[0].to <= to && Tiles(rs[1..], rs[0].to, to)
  }

  /** Non-empty ranges from left to right, none before `from` or past `to`. */
  predicate Chained(rs: seq<Range>, from: nat, to: nat) {
    if rs == [] then from <= to else from <= rs[0].from < rs[0].to && Chained(rs[1..], rs[0].to, to)
  }

  lemma {:induction false} ChainedConcat(a: seq<Range>, b: seq<Range>, from: nat, middle: nat, to: nat)
    requires Chained(a, from, middle) && Chained(b, middle, to)
    ensures Chained(a + b, from, to)
  {
    if a == [] {
      assert a + b == b;
      ChainedEarlier(b, from, middle, to);
    } else {
      ChainedConcat(a[1..], b, a[0].to, middle, to);
      assert (a + b)[0] == a[0] && (a + b)[1..] == a[1..] + b;
    }
  }

  lemma ChainedEarlier(rs: seq<Range>, earlier: nat, from: nat, to: nat)
    requires Chained(rs, from, to) && earlier <= from
    ensures Chained(rs, earlier, to)
  {
  }

  lemma {:induction false} TilesAreChained(rs: seq<Range>, from: nat, to: nat)
    requires Tiles(rs, from, to)
    ensures Chained(rs, from, to)
  {
    if rs != [] { TilesAreChained(rs[1..], rs[0].to, to); }
  }

  /** Chained ranges are in order and disjoint, and lie within the stretch. */
  lemma {:induction false} ChainedIsOrdered(rs: seq<Range>, from: nat, to: nat)
    requires Chained(rs, from, to)
    ensures Ordered(rs) && Within(rs, from, to) && from <= to
  {
    if rs != [] {
      var rest := rs[1..];
      ChainedIsOrdered(rest, rs[0].to, to);
      assert forall i :: 1 <= i < |rs| ==> rs[i] == rest[i - 1];
    }
  }

  // ---------------------------------------------------------------- positions in a line

  /** The first place from `start` on that is not white space, or `end`. */
  function Skip(text: string, start: nat, end: nat): (index: nat)
    requires end <= |text|
    ensures start <= index && (index == start || index <= end)
    ensures forall i :: start <= i < index ==> IsSpace(text[i])
    ensures index < end ==> !IsSpace(text[index])
    decreases end - start
  {
    if start < end && IsSpace(text[start]) then Skip(text, start + 1, end) else start
  }

  /** The place after the last one before `end` that is not white space, or 0. */
  function Back(text: string, end: nat): (index: nat)
    requires end <= |text|
    ensures index <= end
    ensures forall i :: index <= i < end ==> IsSpace(text[i])
    ensures index > 0 ==> !IsSpace(text[index - 1])
  {
    if end > 0 && IsSpace(text[end - 1]) then Back(text, end - 1) else end
  }

  predicate TogglesQuote(text: string, i: nat)
    requires i < |text|
  {
    (text[i] == '\'' || text[i] == '"') && (i == 0 || text[i - 1] != '\\')
  }

  /** The quotation mark that is open after the first n characters. */
  function QuoteAt(text: string, n: nat): Option<char>
    requires n <= |text|
  {
    if n == 0 then None
    else
      var quote := QuoteAt(text, n - 1);
      if !TogglesQuote(text, n - 1) then quote
      else if quote == Some(text[n - 1]) then None
      else quote.OrElse(Some(text[n - 1]))
  }

  /** A colon outside quotation marks that ends the line or stands before white space. */
  predicate ColonAt(text: string, i: nat)
    requires i < |text|
  {
    text[i] == ':' && QuoteAt(text, i).None? && (i + 1 == |text| || IsSpace(text[i + 1]))
  }

  /** A hash sign outside quotation marks; the test of the character before it accepts any. */
  predicate CommentAt(text: string, i: nat)
    requires i < |text|
  {
    text[i] == '#' && QuoteAt(text, i).None?
  }

  /** The first mapping colon from `start` on and before `end`. */
  function FirstColon(text: string, start: nat, end: nat): (colon: Option<nat>)
    requires end <= |text|
    ensures colon.Some? ==> start <= colon.value < end && ColonAt(text, colon.value)
    ensures forall i :: start <= i < colon.GetOr(end) ==> !ColonAt(text, i)
    decreases end - start
  {
    if start >= end then None else if ColonAt(text, start) then Some(start) else FirstColon(text, start + 1, end)
  }

  /** The first comment from `start` on. */
  function FirstComment(text: string, start: nat): (comment: Option<nat>)
    ensures comment.Some? ==> start <= comment.value < |text| && CommentAt(text, comment.value)
    ensures forall i :: start <= i < comment.GetOr(|text|) ==> !CommentAt(text, i)
    decreases |text| - start
  {
    if start >= |text| then None else if CommentAt(text, start) then Some(start) else FirstComment(text, start + 1)
  }

  method TrimStartIndex(text: string, start: nat, end: nat) returns (index: nat)
    requires end <= |text|
    ensures index == Skip(text, start, end)
  {
    index := start;
    while index < end && IsSpace(text[index])
      invariant Skip(text, index, end) == Skip(text, start, end)
    {
      index := index + 1;
    }
  }

  method TrimEndIndex(text: string, end: nat) returns (index: nat)
    requires end <= |text|
    ensures index == Back(text, end)
  {
    index := end;
    while index > 0 && IsSpace(text[index - 1])
      invariant index <= end && Back(text, index) == Back(text, end)
    {
      index := index - 1;
    }
  }

  method FindMappingColon(text: string, end: nat) returns (colon: Option<nat>)
    requires end <= |text|
    ensures colon == FirstColon(text, 0, end)
  {
    var quote: Option<char> := None;
    var index := 0;
    while index < end
      invariant index <= end && quote == QuoteAt(text, index)
      invariant FirstColon(text, index, end) == FirstColon(text, 0, end)
    {
      var here := text[index];
      if (here == '\'' || here == '"') && (index == 0 || text[index - 1] != '\\') {
        quote := if quote == Some(here) then None else quote.OrElse(Some(here));
      } else if quote.None? && here == ':' {
        if index + 1 == |text| || IsSpace(text[index + 1]) { return Some(index); }
      }
      index := index + 1;
    }
    return None;
  }

  method FindYamlCommentStart(text: string) returns (comment: Option<nat>)
    ensures comment == FirstComment(text, 0)
  {
    var quote: Option<char> := None;
    var index := 0;
    while index < |text|
      invariant index <= |text| && quote == QuoteAt(text, index)
      invariant FirstComment(text, index) == FirstComment(text, 0)
    {
      var here := text[index];
      if (here == '\'' || here == '"') && (index == 0 || text[index - 1] != '\\') {
        quote := if quote == Some(here) then None else quote.OrElse(Some(here));
      } else if quote.None? && here == '#' {
        return Some(index);
      }
      index := index + 1;
    }
    return None;
  }

  // ---------------------------------------------------------------- what a line's value is

  /** Where the line's content ends: at its comment, without the white space before it. */
  function ContentEnd(text: string): (end: nat)
    ensures end <= |text|
  {
    Back(text, FirstComment(text, 0).GetOr(|text|))
  }

  /** Where the value of a list item begins: a hyphen, white space and a value that holds no mapping. */
  function ListScalar(text: string, end: nat): (start: Option<nat>)
    requires end <= |text|
    ensures start.Some? ==> start.value < end && Skip(text, 0, end) < start.value && text[Skip(text, 0, end)] == '-'
  {
    var hyphen := Skip(text, 0, end);
    if !(hyphen + 1 < |text| && text[hyphen] == '-' && IsSpace(text[hyphen + 1])) then None
    else
      var value := Skip(text, hyphen + 1, end);
      if value < end && FirstColon(text[value..end], 0, end - value).None? then Some(value) else None
  }

  method FindListScalarStart(text: string, end: nat) returns (valueStart: Option<nat>)
    requires end <= |text|
    ensures valueStart == ListScalar(text, end)
  {
    var start := TrimStartIndex(text, 0, end);
    if start >= |text| || text[start] != '-' || start + 1 >= |text| || !IsSpace(text[start + 1]) { return None; }
    var at := TrimStartIndex(text, start + 1, end);
    if at >= end { return None; }
    var colon := FindMappingColon(text[at..end], end - at);
    return if colon.None? then Some(at) else None;
  }

  /** Where the value to look at begins, if the line has one. */
  function ValueStart(text: string): Option<nat> {
    match FirstColon(text, 0, ContentEnd(text))
    case Some(colon) => Some(Skip(text, colon + 1, ContentEnd(text)))
    case None => ListScalar(text, ContentEnd(text))
  }

  /** A block indicator or a comment is not a value. */
  predicate Unmarked(value: string) {
    value == "|" || value == ">" || (value != "" && value[0] == '#')
  }

  /** The mark a line's value gets: its text trimmed, unless nothing or a block indicator is left. */
  function ValueMarks(lineFrom: nat, text: string): seq<Range> {
    match ValueStart(text)
    case Some(start) => ScalarMark(lineFrom, text, start, ContentEnd(text))
    case None => []
  }

  function ScalarMark(lineFrom: nat, text: string, start: nat, end: nat): seq<Range>
    requires end <= |text|
  {
    var valueStart, valueEnd := Skip(text, start, end), Back(text, end);
    if valueStart >= valueEnd then [] else MarkFor(text[valueStart..valueEnd], lineFrom + valueStart)
  }

  function MarkFor(value: string, at: nat): seq<Range> {
    if value == "" || Unmarked(value) then [] else [Range(at, at + |value|, Scalar(value))]
  }

  // ---------------------------------------------------------------- the class of a value

  function DigitRun(s: string): (n: nat)
    ensures n <= |s| && forall i :: 0 <= i < n ==> IsDigit(s[i])
    ensures n < |s| ==> !IsDigit(s[n])
  {
    if s != "" && IsDigit(s[0]) then 1 + DigitRun(s[1..]) else 0
  }

  function WithoutSign(s: string): string {
    if s != "" && (s[0] == '+' || s[0] == '-') then s[1..] else s
  }

  /** An optional sign, digits without a leading zero, an optional fraction and an optional exponent, and nothing else. */
  predicate IsYamlNumber(text: string) {
    var s := WithoutSign(text);
    var n := DigitRun(s);
    var fraction := s[n..];
    var m := if fraction != "" && fraction[0] == '.' then DigitRun(fraction[1..]) else 0;
    var exponent := if m > 0 then fraction[1 + m..] else fraction;
    && n > 0 && !LeadingZero(s[..n])
    && (exponent == "" || ((exponent[0] == 'e' || exponent[0] == 'E') && IsNumeral(WithoutSign(exponent[1..]))))
  }

  function ScalarKind(value: string): Kind {
    var trimmed := Trim(value);
    if trimmed != "" && (trimmed[0] == '\'' || trimmed[0] == '"') then StringValue
    else if IsBoolWord(trimmed) then BoolValue
    else if IsYamlNumber(trimmed) then NumberValue
    else StringValue
  }

  lemma {:induction false} AllDigits(s: string)
    requires forall i :: 0 <= i < |s| ==> IsDigit(s[i])
    ensures DigitRun(s) == |s|
  {
    if s != "" { AllDigits(s[1..]); }
  }

  predicate IsBoolWord(text: string) { Lower(text) in ["true", "false", "null", "~"] }

  lemma DigitsAreNoWord(text: string)
    requires text != "" && IsDigit(text[|text| - 1])
    ensures !IsBoolWord(text)
  {
    var lowered := Lower(text);
    assert IsDigit(lowered[|lowered| - 1]);
  }

  lemma NumeralIsYamlNumber(digits: string, text: string)
    requires IsNumeral(digits) && !LeadingZero(digits) && WithoutSign(text) == digits
    ensures IsYamlNumber(text)
  {
    AllDigits(digits);
    assert digits[..|digits|] == digits && digits[|digits|..] == "";
  }

  /** Numbers written as JavaScript writes them, with or without a sign, get the number class. */
  lemma IntegersAreNumbers(n: nat, negative: bool)
    ensures ScalarKind(if negative then ['-'] + Decimal(n) else Decimal(n)) == NumberValue
  {
    var digits := Decimal(n);
    var text := if negative then ['-'] + digits else digits;
    NumberOfDecimal(n);
    assert text[0] == (if negative then '-' else digits[0]) && text[|text| - 1] == digits[|digits| - 1];
    NothingToTrim(text);
    assert negative ==> text[1..] == digits;
    NumeralIsYamlNumber(digits, text);
    DigitsAreNoWord(text);
  }

  /** A value that opens with a quotation mark is a string, whatever it holds. */
  lemma QuotedIsString(value: string)
    requires Trim(value) != "" && Trim(value)[0] in {'\'', '"'}
    ensures ScalarKind(value) == StringValue
  {
  }

  // ---------------------------------------------------------------- the builder

  class RangeSetBuilder {
    var ranges: seq<Range>

    constructor ()
      ensures ranges == []
    {
      ranges := [];
    }

    method Add(from: nat, to: nat, mark: Mark)
      modifies this
      ensures ranges == old(ranges) + [Range(from, to, mark)]
    {
      ranges := ranges + [Range(from, to, mark)];
    }
  }

  /** The columns before the first character that is not white space; none in a blank line. */
  function IndentEnd(text: string): (end: nat)
    ensures end <= |text|
  {
    var first := Skip(text, 0, |text|);
    if first < |text| then first else 0
  }

  /** Two columns a mark, numbered modulo the number of classes; the last one may be one column wide. */
  function IndentMarks(lineFrom: nat, start: nat, indentEnd: nat, depth: nat): seq<Range>
    decreases indentEnd - start
  {
    if start >= indentEnd then []
    else
      [Range(lineFrom + start, lineFrom + Least(start + 2, indentEnd), Indent(depth % INDENT_DEPTH_CLASS_COUNT))]
      + IndentMarks(lineFrom, start + 2, indentEnd, depth + 1)
  }

  function Least(a: nat, b: nat): nat { if a < b then a else b }

  /** The marks cover the indent without gap or overlap. */
  lemma {:induction false} IndentTiles(lineFrom: nat, start: nat, indentEnd: nat, depth: nat)
    ensures Tiles(IndentMarks(lineFrom, start, indentEnd, depth), lineFrom + Least(start, indentEnd), lineFrom + indentEnd)
    decreases indentEnd - start
  {
    if start < indentEnd { IndentTiles(lineFrom, start + 2, indentEnd, depth + 1); }
  }

  /** The mark of every second column carries the class of its depth. */
  lemma {:induction false} IndentDepths(lineFrom: nat, start: nat, indentEnd: nat, depth: nat, i: nat)
    requires i < |IndentMarks(lineFrom, start, indentEnd, depth)|
    ensures var mark := IndentMarks(lineFrom, start, indentEnd, depth)[i];
            && mark.from == lineFrom + start + 2 * i && mark.to <= mark.from + 2
            && mark.mark == Indent((depth + i) % 6)
    decreases i
  {
    if i > 0 { IndentDepths(lineFrom, start + 2, indentEnd, depth + 1, i - 1); }
  }

  method AddIndentDecorations(builder: RangeSetBuilder, lineFrom: nat, text: string)
    modifies builder
    ensures builder.ranges == old(builder.ranges) + IndentMarks(lineFrom, 0, IndentEnd(text), 0)
  {
    var indentEnd := IndentEnd(text);
    if indentEnd <= 0 { return; }
    var start, depth := 0, 0;
    while start < indentEnd
      invariant builder.ranges + IndentMarks(lineFrom, start, indentEnd, depth)
             == old(builder.ranges) + IndentMarks(lineFrom, 0, indentEnd, 0)
    {
      ghost var before, rest := builder.ranges, IndentMarks(lineFrom, start + 2, indentEnd, depth + 1);
      var to := if start + 2 < indentEnd then start + 2 else indentEnd;
      var mark := Indent(depth % INDENT_DEPTH_CLASS_COUNT);
      builder.Add(lineFrom + start, lineFrom + to, mark);
      assert before + ([Range(lineFrom + start, lineFrom + to, mark)] + rest) == builder.ranges + rest;
      start, depth := start + 2, depth + 1;
    }
  }

  method AddScalarDecoration(builder: RangeSetBuilder, lineFrom: nat, text: string, start: nat, end: nat)
    requires end <= |text|
    modifies builder
    ensures builder.ranges == old(builder.ranges) + ScalarMark(lineFrom, text, start, end)
  {
    var valueStart := TrimStartIndex(text, start, end);
    var valueEnd := TrimEndIndex(text, end);
    if valueStart >= valueEnd { return; }
    var value := text[valueStart..valueEnd];
    if Unmarked(value) { return; }
    builder.Add(lineFrom + valueStart, lineFrom + valueEnd, Scalar(value));
  }

  method FindValue(text: string) returns (start: Option<nat>, contentEnd: nat)
    ensures contentEnd == ContentEnd(text) && start == ValueStart(text)
  {
    var comment := FindYamlCommentStart(text);
    contentEnd := TrimEndIndex(text, comment.GetOr(|text|));
    var colon := FindMappingColon(text, contentEnd);
    if colon.Some? {
      var at := TrimStartIndex(text, colon.value + 1, contentEnd);
      return Some(at), contentEnd;
    }
    start := FindListScalarStart(text, contentEnd);
  }

  method AddLineValueDecorations(builder: RangeSetBuilder, lineFrom: nat, text: string)
    modifies builder
    ensures builder.ranges == old(builder.ranges) + ValueMarks(lineFrom, text)
  {
    var start, contentEnd := FindValue(text);
    if start.Some? {
      AddScalarDecoration(builder, lineFrom, text, start.value, contentEnd);
    }
  }

  // ---------------------------------------------------------------- whole documents

  /** Every value starts after the indent. */
  lemma ValueStartsAfterIndent(text: string)
    requires ValueStart(text).Some?
    ensures IndentEnd(text) < ValueStart(text).value
  {
    var end := ContentEnd(text);
    var first := Skip(text, 0, |text|);
    var at := if FirstColon(text, 0, end).Some? then FirstColon(text, 0, end).value else Skip(text, 0, end);
    assert !IsSpace(text[at]);
    assert first <= at;
  }

  /** A value's mark lies in its line, after the indent. */
  lemma ValueMarkWithin(lineFrom: nat, text: string)
    ensures Chained(ValueMarks(lineFrom, text), lineFrom + IndentEnd(text), lineFrom + |text|)
  {
    if ValueStart(text).Some? { ValueStartsAfterIndent(text); }
    OneChained(ValueMarks(lineFrom, text), lineFrom + IndentEnd(text), lineFrom + |text|);
  }

  lemma OneChained(rs: seq<Range>, from: nat, to: nat)
    requires from <= to && |rs| <= 1 && (rs != [] ==> from <= rs[0].from < rs[0].to <= to)
    ensures Chained(rs, from, to)
  {
  }

  lemma {:induction false} SkipTrims(text: string, start: nat, end: nat)
    requires start <= end <= |text|
    ensures TrimStart(text[start..end]) == text[Skip(text, start, end)..end]
    decreases end - start
  {
    if start < end && IsSpace(text[start]) {
      SkipTrims(text, start + 1, end);
      assert text[start..end][1..] == text[start + 1..end];
    }
  }

  lemma {:induction false} BackTrims(text: string, from: nat, end: nat)
    requires from <= end <= |text|
    ensures TrimEnd(text[from..end]) == if from < Back(text, end) then text[from..Back(text, end)] else ""
  {
    if from < end && IsSpace(text[end - 1]) {
      BackTrims(text, from, end - 1);
      assert text[from..end][..end - 1 - from] == text[from..end - 1];
    }
  }

  lemma SkipIsUnique(text: string, start: nat, end: nat, index: nat)
    requires start <= index < end <= |text| && !IsSpace(text[index])
    requires forall i :: start <= i < index ==> IsSpace(text[i])
    ensures Skip(text, start, end) == index
  {
  }

  /** Trimming a stretch and cutting its white space off by index come to the same. */
  lemma TrimByIndex(text: string, start: nat, cut: nat)
    requires cut <= |text| && start <= Back(text, cut)
    ensures Trim(text[start..cut])
         == if start < Back(text, cut) then text[Skip(text, start, Back(text, cut))..Back(text, cut)] else ""
  {
    var end := Back(text, cut);
    SkipTrims(text, start, cut);
    if start < end {
      var from := Skip(text, start, end);
      assert from < end;
      SkipIsUnique(text, start, cut, from);
      BackTrims(text, from, cut);
    } else {
      BackTrims(text, Skip(text, start, cut), cut);
    }
  }

  /** What follows a colon, up to the comment and trimmed. */
  function MappingValue(text: string, colon: nat): string
    requires FirstColon(text, 0, ContentEnd(text)) == Some(colon)
  {
    Trim(text[colon + 1..FirstComment(text, 0).GetOr(|text|)])
  }

  lemma MappingValueText(text: string, colon: nat)
    requires FirstColon(text, 0, ContentEnd(text)) == Some(colon)
    ensures var end, from := ContentEnd(text), Skip(text, colon + 1, ContentEnd(text));
            from <= end && MappingValue(text, colon) == if from < end then text[from..end] else ""
  {
    TrimByIndex(text, colon + 1, FirstComment(text, 0).GetOr(|text|));
  }

  /** The value of the first mapping is what gets marked, where it stands. */
  lemma MappingValueIsMarked(lineFrom: nat, text: string, colon: nat)
    requires FirstColon(text, 0, ContentEnd(text)) == Some(colon)
    ensures var value, from := MappingValue(text, colon), ValueStart(text).value;
            && colon < from && from + |value| <= |text| && text[from..from + |value|] == value
            && ValueMarks(lineFrom, text) == MarkFor(value, lineFrom + from)
  {
    var end, from := ContentEnd(text), ValueStart(text).value;
    MappingValueText(text, colon);
    BackTwice(text, FirstComment(text, 0).GetOr(|text|));
    ValueMarksAre(lineFrom, text);
  }

  lemma ValueMarksAre(lineFrom: nat, text: string)
    requires ValueStart(text).Some? && Back(text, ContentEnd(text)) == ContentEnd(text)
    requires FirstColon(text, 0, ContentEnd(text)).Some?
    ensures var end, from := ContentEnd(text), ValueStart(text).value;
            ValueMarks(lineFrom, text) == MarkFor(if from < end then text[from..end] else "", lineFrom + from)
  {
    var end, from := ContentEnd(text), ValueStart(text).value;
    assert Skip(text, from, end) == from;
  }

  lemma BackTwice(text: string, end: nat)
    requires end <= |text|
    ensures Back(text, Back(text, end)) == Back(text, end)
  {
  }

  // ---------------------------------------------------------------- list items and quotation marks

  /** A list item: a hyphen at h, the first character of the line, white space, and a value from v on. */
  ghost predicate IsListItem(text: string, end: nat, h: nat, v: nat) {
    && h + 1 < v < end <= |text| && text[h] == '-' && !IsSpace(text[v])
    && (forall i :: 0 <= i < h ==> IsSpace(text[i])) && (forall i :: h < i < v ==> IsSpace(text[i]))
  }

  /** The value, taken by itself, holds a mapping colon. */
  ghost predicate HoldsMapping(value: string) {
    exists i :: 0 <= i < |value| && ColonAt(value, i)
  }

  lemma ListScalarFound(text: string, end: nat, h: nat, v: nat)
    requires IsListItem(text, end, h, v)
    ensures ListScalar(text, end) == if HoldsMapping(text[v..end]) then None else Some(v)
  {
    SkipIsUnique(text, 0, end, h);
    SkipIsUnique(text, h + 1, end, v);
    assert IsSpace(text[h + 1]);
  }

  /** A value is found exactly in a list item whose value holds no mapping. */
  lemma ListScalarIs(text: string, end: nat, v: nat)
    requires end <= |text|
    ensures ListScalar(text, end) == Some(v)
       <==> (exists h: nat :: IsListItem(text, end, h, v)) && !HoldsMapping(text[v..end])
  {
    if ListScalar(text, end) == Some(v) {
      assert IsListItem(text, end, Skip(text, 0, end), v);
    }
    forall h: nat | IsListItem(text, end, h, v)
      ensures ListScalar(text, end) == if HoldsMapping(text[v..end]) then None else Some(v)
    {
      ListScalarFound(text, end, h, v);
    }
  }

  lemma FoundIsMarked(lineFrom: nat, text: string, v: nat)
    requires FirstColon(text, 0, ContentEnd(text)).None? && ListScalar(text, ContentEnd(text)) == Some(v)
    ensures ValueMarks(lineFrom, text) == MarkFor(text[v..ContentEnd(text)], lineFrom + v)
  {
    var end := ContentEnd(text);
    BackTwice(text, FirstComment(text, 0).GetOr(|text|));
    ListScalarIs(text, end, v);
    assert Skip(text, v, end) == v;
  }

  /** Of a line without a mapping exactly such a value is marked, up to its comment, where it stands. */
  lemma ListItemIsMarked(lineFrom: nat, text: string)
    requires FirstColon(text, 0, ContentEnd(text)).None?
    ensures forall h: nat, v: nat :: IsListItem(text, ContentEnd(text), h, v) && !HoldsMapping(text[v..ContentEnd(text)]) ==>
              ValueMarks(lineFrom, text) == MarkFor(text[v..ContentEnd(text)], lineFrom + v)
    ensures (forall h: nat, v: nat :: IsListItem(text, ContentEnd(text), h, v) ==> HoldsMapping(text[v..ContentEnd(text)])) ==>
              ValueMarks(lineFrom, text) == []
  {
    var end := ContentEnd(text);
    forall h: nat, v: nat | IsListItem(text, end, h, v) && !HoldsMapping(text[v..end])
      ensures ValueMarks(lineFrom, text) == MarkFor(text[v..end], lineFrom + v)
    {
      ListScalarFound(text, end, h, v);
      FoundIsMarked(lineFrom, text, v);
    }
    if ListScalar(text, end).Some? { ListScalarIs(text, end, ListScalar(text, end).value); }
  }

  /** From an opening quotation mark on, everything up to the next one of its kind that no backslash
      stands before is quoted; that mark closes it. */
  lemma {:induction false} QuotedStretch(text: string, from: nat, n: nat)
    requires from < n <= |text| && QuoteAt(text, from).None? && TogglesQuote(text, from)
    requires forall i :: from < i < n ==> text[i] != text[from] || text[i - 1] == '\\'
    ensures QuoteAt(text, n) == Some(text[from])
    ensures n < |text| && text[n] == text[from] && text[n - 1] != '\\' ==> QuoteAt(text, n + 1).None?
  {
    if from + 1 < n { QuotedStretch(text, from, n - 1); }
  }

  /** The key of a mapping without quotation marks and colons ends at its colon. */
  lemma PlainKeyEnds(key: string, rest: string)
    requires forall i :: 0 <= i < |key| ==> key[i] !in {':', '\'', '"'}
    requires rest == "" || IsSpace(rest[0])
    ensures FirstColon(key + ":" + rest, 0, |key + ":" + rest|) == Some(|key|)
  {
    var text := key + ":" + rest;
    assert forall i :: 0 <= i < |key| ==> text[i] == key[i];
    assert text[|key|] == ':' && (rest != "" ==> text[|key| + 1] == rest[0]);
    NothingQuoted(text, |key|);
    assert ColonAt(text, |key|);
    assert forall i :: 0 <= i < |key| ==> !ColonAt(text, i) by {
      assert forall i :: 0 <= i < |key| ==> text[i] != ':';
    }
  }

  lemma {:induction false} NothingQuoted(text: string, n: nat)
    requires n <= |text| && forall i :: 0 <= i < n ==> text[i] !in {'\'', '"'}
    ensures QuoteAt(text, n).None?
  {
    if n > 0 { NothingQuoted(text, n - 1); }
  }

  /** Where each line of the document begins, a line break being one character. */
  function LineFrom(lines: seq<string>, n: nat): nat
    requires n <= |lines|
  {
    if n == 0 then 0 else LineFrom(lines, n - 1) + |lines[n - 1]| + 1
  }

  /** The marks of one line: the indent's, then the value's. */
  function LineMarks(lineFrom: nat, text: string): seq<Range> {
    IndentMarks(lineFrom, 0, IndentEnd(text), 0) + ValueMarks(lineFrom, text)
  }

  function MarksOfLine(lines: seq<string>, i: nat): seq<Range>
    requires i < |lines|
  {
    LineMarks(LineFrom(lines, i), lines[i])
  }

  /** The marks of each line. */
  function AllMarks(lines: seq<string>): (parts: seq<seq<Range>>)
    ensures |parts| == |lines| && forall i {:trigger parts[i]} :: 0 <= i < |lines| ==> parts[i] == MarksOfLine(lines, i)
  {
    seq(|lines|, i requires 0 <= i < |lines| => MarksOfLine(lines, i))
  }

  function Concat(parts: seq<seq<Range>>, n: nat): seq<Range>
    requires n <= |parts|
  {
    if n == 0 then [] else Concat(parts, n - 1) + parts[n - 1]
  }

  /** The marks of the first n lines, line by line. */
  function DocumentMarks(lines: seq<string>, n: nat): seq<Range>
    requires n <= |lines|
  {
    Concat(AllMarks(lines), n)
  }

  /** The marks of a line are in order and disjoint, and lie within it. */
  lemma LineWithin(lineFrom: nat, text: string)
    ensures Chained(LineMarks(lineFrom, text), lineFrom, lineFrom + |text|)
    ensures Ordered(LineMarks(lineFrom, text)) && Within(LineMarks(lineFrom, text), lineFrom, lineFrom + |text|)
  {
    var indent, value := IndentMarks(lineFrom, 0, IndentEnd(text), 0), ValueMarks(lineFrom, text);
    IndentTiles(lineFrom, 0, IndentEnd(text), 0);
    TilesAreChained(indent, lineFrom, lineFrom + IndentEnd(text));
    ValueMarkWithin(lineFrom, text);
    ChainedConcat(indent, value, lineFrom, lineFrom + IndentEnd(text), lineFrom + |text|);
    ChainedIsOrdered(indent + value, lineFrom, lineFrom + |text|);
  }

  /** The marks of a document with one more line. */
  lemma NextLine(lines: seq<string>, n: nat)
    requires n < |lines|
    ensures var from := LineFrom(lines, n);
            DocumentMarks(lines, n + 1)
            == DocumentMarks(lines, n) + IndentMarks(from, 0, IndentEnd(lines[n]), 0) + ValueMarks(from, lines[n])
  {
    var from := LineFrom(lines, n);
    Regroup(DocumentMarks(lines, n), IndentMarks(from, 0, IndentEnd(lines[n]), 0), ValueMarks(from, lines[n]));
  }

  lemma Regroup(a: seq<Range>, b: seq<Range>, c: seq<Range>)
    ensures a + (b + c) == a + b + c
  {
  }

  ghost predicate LinesFit(parts: seq<seq<Range>>, lines: seq<string>) {
    |parts| == |lines| && forall i {:trigger parts[i]} :: 0 <= i < |lines| ==> Fits(parts[i], lines, i)
  }

  /** The marks lie in the i-th line. */
  ghost predicate Fits(marks: seq<Range>, lines: seq<string>, i: nat)
    requires i < |lines|
  {
    Chained(marks, LineFrom(lines, i), LineFrom(lines, i) + |lines[i]|)
  }

  lemma {:induction false} LinesFollow(parts: seq<seq<Range>>, lines: seq<string>, n: nat)
    requires n <= |lines| && LinesFit(parts, lines)
    ensures Chained(Concat(parts, n), 0, LineFrom(lines, n))
  {
    if n > 0 {
      var from, to := LineFrom(lines, n - 1), LineFrom(lines, n);
      LinesFollow(parts, lines, n - 1);
      assert Fits(parts[n - 1], lines, n - 1);
      ChainedLater(parts[n - 1], from, to - 1);
      ChainedConcat(Concat(parts, n - 1), parts[n - 1], 0, from, to);
    }
  }

  lemma {:induction false} ChainedLater(rs: seq<Range>, from: nat, to: nat)
    requires Chained(rs, from, to)
    ensures Chained(rs, from, to + 1)
  {
    if rs != [] { ChainedLater(rs[1..], rs[0].to, to); }
  }

  /** All marks of a document are non-empty, in order and disjoint, and lie within its text. */
  lemma DocumentIsOrdered(lines: seq<string>, n: nat)
    requires n <= |lines|
    ensures Ordered(DocumentMarks(lines, n)) && Within(DocumentMarks(lines, n), 0, LineFrom(lines, n))
  {
    PartsFit(lines);
    LinesFollow(AllMarks(lines), lines, n);
    ChainedIsOrdered(Concat(AllMarks(lines), n), 0, LineFrom(lines, n));
  }

  lemma LineFits(lines: seq<string>, i: nat)
    requires i < |lines|
    ensures Fits(MarksOfLine(lines, i), lines, i)
  {
    LineWithin(LineFrom(lines, i), lines[i]);
  }

  lemma PartsFit(lines: seq<string>)
    ensures LinesFit(AllMarks(lines), lines)
  {
    forall i | 0 <= i < |lines|
      ensures Fits(AllMarks(lines)[i], lines, i)
    {
      LineFits(lines, i);
    }
  }

  /** The marks of a document, in the order the builder was given them; none for no state. */
  method BuildYamlValueDecorations(state: Option<seq<string>>) returns (marks: seq<Range>)
    ensures marks == if state.None? then [] else DocumentMarks(state.value, |state.value|)
    ensures Ordered(marks)
  {
    if state.None? { return []; }
    var lines := state.value;
    var builder := new RangeSetBuilder();
    var lineNumber, from := 1, 0;
    while lineNumber <= |lines|
      invariant 1 <= lineNumber <= |lines| + 1 && from == LineFrom(lines, lineNumber - 1)
      invariant fresh(builder) && builder.ranges == DocumentMarks(lines, lineNumber - 1)
    {
      var text := lines[lineNumber - 1];
      NextLine(lines, lineNumber - 1);
      AddIndentDecorations(builder, from, text);
      AddLineValueDecorations(builder, from, text);
      from := from + |text| + 1;
      lineNumber := lineNumber + 1;
    }
    DocumentIsOrdered(lines, |lines|);
    return builder.ranges;
  }
}
