/** The buffer-carrying loops that cut a streamed response into server-sent-event frames. */
module SseFrames {
  import opened Prelude

  // ---- Cutting at blank lines -------------------------------------------------------------

  /** Cuts at every "\n\n", leftmost first and without overlap. */
  function Split(s: string): (pieces: seq<string>)
    ensures pieces != []
  {
    if |s| < 2 then [s]
    else if s[0] == '\n' && s[1] == '\n' then [""] + Split(s[2..])
    else
      var rest := Split(s[1..]);
      [[s[0]] + rest[0]] + rest[1..]
  }

  function Init<T>(s: seq<T>): seq<T>
    requires s != []
  {
    s[..|s| - 1]
  }

  function Last<T>(s: seq<T>): T
    requires s != []
  {
    s[|s| - 1]
  }

  predicate HasBreak(s: string) {
    exists i | 0 <= i < |s| - 1 :: s[i] == '\n' == s[i + 1]
  }

  function Join(pieces: seq<string>): string
    requires pieces != []
  {
    if |pieces| == 1 then pieces[0] else pieces[0] + "\n\n" + Join(pieces[1..])
  }

  /** A frame whose end is the first "\n\n" after its start. */
  predicate Complete(piece: string) {
    !HasBreak(piece) && (piece == "" || Last(piece) != '\n')
  }

  /** `pieces` is `s` cut at blank lines: joined again they give `s`, each ends at the first possible
      place, and nothing more can be cut off the last. */
  predicate IsCut(s: string, pieces: seq<string>) {
    && pieces != [] && Join(pieces) == s
    && (forall i :: 0 <= i < |pieces| - 1 ==> Complete(pieces[i]))
    && !HasBreak(Last(pieces))
  }

  lemma {:induction false} SplitUnbroken(s: string)
    ensures !HasBreak(s) ==> Split(s) == [s]
  {
    if |s| >= 2 && !HasBreak(s) {
      assert !(s[0] == '\n' == s[1]);
      forall i | 0 <= i < |s[1..]| - 1
        ensures !(s[1..][i] == '\n' == s[1..][i + 1])
      {
        assert !(s[i + 1] == '\n' == s[i + 2]);
      }
      SplitUnbroken(s[1..]);
      assert [s[0]] + s[1..] == s;
    }
  }

  /** A complete frame and its blank line come off the front. */
  lemma {:induction false} SplitFirst(piece: string, rest: string)
    requires Complete(piece)
    ensures Split(piece + "\n\n" + rest) == [piece] + Split(rest)
  {
    var s := piece + "\n\n" + rest;
    if piece == "" {
      assert s[2..] == rest;
    } else {
      var tail := piece[1..];
      forall i | 0 <= i < |tail| - 1
        ensures !(tail[i] == '\n' == tail[i + 1])
      {
        assert !(piece[i + 1] == '\n' == piece[i + 2]);
      }
      if tail != "" {
        assert !(piece[0] == '\n' == piece[1]);
        assert Last(tail) == Last(piece);
      }
      SplitFirst(tail, rest);
      assert s[1..] == tail + "\n\n" + rest;
      assert [s[0]] + tail == piece;
    }
  }

  lemma {:induction false} CutIsUnique(s: string, pieces: seq<string>)
    requires IsCut(s, pieces)
    ensures pieces == Split(s)
    decreases |pieces|
  {
    if |pieces| == 1 {
      SplitUnbroken(s);
    } else {
      assert Complete(pieces[0]);
      forall i | 0 <= i < |pieces[1..]| - 1
        ensures Complete(pieces[1..][i])
      {
        assert Complete(pieces[i + 1]);
      }
      CutIsUnique(Join(pieces[1..]), pieces[1..]);
      SplitFirst(pieces[0], Join(pieces[1..]));
    }
  }

  lemma BreakKeepsCut(s: string, pieces: seq<string>)
    requires IsCut(s, pieces)
    ensures IsCut("\n\n" + s, [""] + pieces)
  {
    var longer := [""] + pieces;
    assert longer[1..] == pieces;
    assert "" + "\n\n" + s == "\n\n" + s;
    forall i | 0 <= i < |longer| - 1
      ensures Complete(longer[i])
    {
      assert i > 0 ==> longer[i] == pieces[i - 1] && Complete(pieces[i - 1]);
    }
  }

  /** A character that does not make a blank line with what follows goes to the first piece. */
  lemma PrependKeepsCut(c: char, s: string, pieces: seq<string>)
    requires IsCut(s, pieces) && s != "" && !(c == '\n' == s[0])
    ensures IsCut([c] + s, [[c] + pieces[0]] + pieces[1..])
  {
    var longer := [[c] + pieces[0]] + pieces[1..];
    assert longer[1..] == pieces[1..];
    assert pieces[0] != "" ==> pieces[0][0] == s[0];
    forall i | 0 <= i < |longer[0]| - 1
      ensures !(longer[0][i] == '\n' == longer[0][i + 1])
    {
      assert |pieces| > 1 ==> Complete(pieces[0]);
      assert i > 0 ==> !(pieces[0][i - 1] == '\n' == pieces[0][i]);
    }
    if |pieces| > 1 {
      assert Complete(pieces[0]);
      assert pieces[0] == "" ==> s[0] == '\n';
      assert [c] + (pieces[0] + "\n\n" + Join(pieces[1..])) == [c] + pieces[0] + "\n\n" + Join(pieces[1..]);
      assert Complete(longer[0]);
    }
    forall i | 0 <= i < |longer| - 1
      ensures Complete(longer[i])
    {
      assert i > 0 ==> Complete(pieces[i]);
    }
  }

  lemma {:induction false} SplitCuts(s: string)
    ensures IsCut(s, Split(s))
  {
    if |s| >= 2 {
      hide IsCut;
      if s[0] == '\n' && s[1] == '\n' {
        SplitCuts(s[2..]);
        BreakKeepsCut(s[2..], Split(s[2..]));
        assert s == "\n\n" + s[2..];
      } else {
        SplitCuts(s[1..]);
        PrependKeepsCut(s[0], s[1..], Split(s[1..]));
        assert s == [s[0]] + s[1..];
      }
    }
  }

  /** The pieces of a text are the one way to cut it at blank lines. */
  lemma SplitIsTheOnlyCut(s: string, pieces: seq<string>)
    ensures IsCut(s, pieces) <==> pieces == Split(s)
  {
    SplitCuts(s);
    if IsCut(s, pieces) {
      CutIsUnique(s, pieces);
    }
  }

  // ---- Chunks -----------------------------------------------------------------------------

  function Text(chunks: seq<string>): string {
    if chunks == [] then "" else Text(Init(chunks)) + Last(chunks)
  }

  lemma InitOfSum<T>(a: seq<T>, b: seq<T>)
    requires b != []
    ensures Init(a + b) == a + Init(b) && Last(a + b) == Last(b)
  {
  }

  lemma PrependPiece(piece: string, pieces: seq<string>, more: seq<string>)
    requires pieces != []
    ensures [piece] + (Init(pieces) + more) == Init([piece] + pieces) + more
    ensures Last([piece] + pieces) == Last(pieces)
  {
  }

  lemma SplitExtendsByBreak(a: string, b: string)
    requires |a| >= 2 && a[0] == '\n' == a[1]
    requires Split(a[2..] + b) == Init(Split(a[2..])) + Split(Last(Split(a[2..])) + b)
    ensures Split(a + b) == Init(Split(a)) + Split(Last(Split(a)) + b)
  {
    var rest := Split(a[2..]);
    assert (a + b)[2..] == a[2..] + b;
    PrependPiece("", rest, Split(Last(rest) + b));
  }

  lemma PrependToFirst(c: char, pieces: seq<string>, more: seq<string>)
    requires |pieces| > 1
    ensures var joined := Init(pieces) + more;
            [[c] + joined[0]] + joined[1..] == Init([[c] + pieces[0]] + pieces[1..]) + more
    ensures Last([[c] + pieces[0]] + pieces[1..]) == Last(pieces)
  {
  }

  lemma SplitExtendsByOne(a: string, b: string)
    requires |a| >= 2 && !(a[0] == '\n' == a[1])
    requires Split(a[1..] + b) == Init(Split(a[1..])) + Split(Last(Split(a[1..])) + b)
    ensures Split(a + b) == Init(Split(a)) + Split(Last(Split(a)) + b)
  {
    var rest := Split(a[1..]);
    assert (a + b)[1..] == a[1..] + b;
    if |rest| == 1 {
      SplitCuts(a[1..]);
      assert [a[0]] + a[1..] == a;
    } else {
      PrependToFirst(a[0], rest, Split(Last(rest) + b));
    }
  }

  /** What is left over from one text is all the next split needs. */
  lemma {:induction false} SplitExtends(a: string, b: string)
    ensures Split(a + b) == Init(Split(a)) + Split(Last(Split(a)) + b)
  {
    if |a| < 2 {
    } else if a[0] == '\n' && a[1] == '\n' {
      SplitExtends(a[2..], b);
      SplitExtendsByBreak(a, b);
    } else {
      SplitExtends(a[1..], b);
      SplitExtendsByOne(a, b);
    }
  }

  lemma ExtendingIsFinal(a: string, b: string)
    ensures Init(Split(a)) <= Init(Split(a + b))
  {
    SplitExtends(a, b);
    InitOfSum(Init(Split(a)), Split(Last(Split(a)) + b));
  }

  /** The frames of a response do not depend on how it was cut into chunks, and every one is delivered as
      soon as the blank line that ends it has arrived. */
  lemma FramesAreFinal(chunks: seq<string>, n: nat)
    requires n <= |chunks|
    ensures Init(Split(Text(chunks[..n]))) <= Init(Split(Text(chunks)))
  {
    hide Split;
    if n == |chunks| {
      assert chunks[..n] == chunks;
    } else {
      var before := Init(chunks);
      assert chunks[..n] == before[..n];
      assert Text(chunks) == Text(before) + Last(chunks);
      hide Text, Init;
      FramesAreFinal(before, n);
      ExtendingIsFinal(Text(before), Last(chunks));
    }
  }

  // ---- What a frame carries ---------------------------------------------------------------

  /** White space as `String.prototype.trim` of ECMAScript sees it. */
  predicate IsSpace(c: char) {
    var n := c as int;
    || 9 <= n <= 13 || n == 32 || n == 0xA0 || n == 0x1680 || 0x2000 <= n <= 0x200A
    || n == 0x2028 || n == 0x2029 || n == 0x202F || n == 0x205F || n == 0x3000 || n == 0xFEFF
  }

  function Trim(s: string): string {
    if s == "" then s
    else if IsSpace(s[0]) then Trim(s[1..])
    else if IsSpace(Last(s)) then Trim(Init(s))
    else s
  }

  function Lines(s: string): (lines: seq<string>)
    ensures lines != []
  {
    if s == "" then [""]
    else if s[0] == '\n' then [""] + Lines(s[1..])
    else
      var rest := Lines(s[1..]);
      [[s[0]] + rest[0]] + rest[1..]
  }

  /** The first line of `lines` that, trimmed, is a data line. */
  function DataLine(lines: seq<string>): Option<string> {
    if lines == [] then None
    else if "data:" <= Trim(lines[0]) then Some(Trim(lines[0]))
    else DataLine(lines[1..])
  }

  function VoiceBody(frame: string): Option<string> {
    var line := Trim(frame);
    if "data:" <= line then Some(Trim(line[5..])) else None
  }

  function A2ABody(frame: string): Option<string> {
    match DataLine(Lines(frame))
    case None => None
    case Some(line) => if "data:" <= line then Some(Trim(line[5..])) else None
  }

  /** What a reader of frames yields for one: nothing without a data line or with a malformed body. */
  function Reads<J>(body: string -> Option<string>, parse: string -> Option<J>): string -> Option<J> {
    frame => match body(frame) case None => None case Some(b) => parse(b)
  }

  lemma ReadsOne<J>(body: string -> Option<string>, parse: string -> Option<J>, frame: string)
    ensures Reads(body, parse)(frame) == match body(frame) case None => None case Some(b) => parse(b)
  {
  }

  function Delivered<J>(frames: seq<string>, read: string -> Option<J>): seq<J> {
    if frames == [] then [] else
      var before := Delivered(Init(frames), read);
      match read(Last(frames))
      case None => before
      case Some(j) => before + [j]
  }

  lemma {:induction false} DeliveredAppends<J>(a: seq<string>, b: seq<string>, read: string -> Option<J>)
    ensures Delivered(a + b, read) == Delivered(a, read) + Delivered(b, read)
  {
    if b == [] {
      assert a + b == a;
    } else {
      DeliveredAppends(a, Init(b), read);
      assert Init(a + b) == a + Init(b);
    }
  }

  // ---- What counts as a data line ---------------------------------------------------------

  predicate AllSpace(s: string) { forall i :: 0 <= i < |s| ==> IsSpace(s[i]) }

  /** `t` is `s` without the white space around it. */
  ghost predicate IsCore(s: string, t: string) {
    && (t != "" ==> !IsSpace(t[0]) && !IsSpace(Last(t)))
    && exists a, b :: s == a + t + b && AllSpace(a) && AllSpace(b)
  }

  lemma {:induction false} TrimOfSpaces(s: string)
    requires AllSpace(s)
    ensures Trim(s) == ""
  {
    if s != "" {
      TrimOfSpaces(s[1..]);
    }
  }

  lemma {:induction false} TrimEnd(t: string, b: string)
    requires AllSpace(b) && t != "" && !IsSpace(t[0]) && !IsSpace(Last(t))
    ensures Trim(t + b) == t
  {
    if b == "" {
      assert t + b == t;
    } else {
      TrimEnd(t, Init(b));
      assert Init(t + b) == t + Init(b) && Last(t + b) == Last(b) && (t + b)[0] == t[0];
    }
  }

  lemma {:induction false} TrimOfCore(a: string, t: string, b: string)
    requires AllSpace(a) && AllSpace(b) && (t != "" ==> !IsSpace(t[0]) && !IsSpace(Last(t)))
    ensures Trim(a + t + b) == t
    decreases |a|
  {
    if a != "" {
      TrimOfCore(a[1..], t, b);
      assert (a + t + b)[1..] == a[1..] + t + b && (a + t + b)[0] == a[0];
    } else if t == "" {
      TrimOfSpaces(b);
      assert a + t + b == b;
    } else {
      TrimEnd(t, b);
      assert a + t + b == t + b;
    }
  }

  lemma NoSpaces()
    ensures AllSpace("")
  {
  }

  lemma OneMoreSpace(c: char, s: string)
    requires IsSpace(c) && AllSpace(s)
    ensures AllSpace([c] + s) && AllSpace(s + [c])
  {
  }

  lemma {:induction false} TrimLeavesCore(s: string) returns (a: string, b: string)
    ensures s == a + Trim(s) + b && AllSpace(a) && AllSpace(b)
    ensures Trim(s) != "" ==> !IsSpace(Trim(s)[0]) && !IsSpace(Last(Trim(s)))
    decreases |s|
  {
    hide IsSpace, AllSpace;
    if s != "" && IsSpace(s[0]) {
      var t := Trim(s[1..]);
      assert Trim(s) == t;
      a, b := TrimLeavesCore(s[1..]);
      hide Trim;
      OneMoreSpace(s[0], a);
      assert s == [s[0]] + (a + t + b) == [s[0]] + a + t + b;
      a := [s[0]] + a;
    } else if s != "" && IsSpace(Last(s)) {
      var t := Trim(Init(s));
      assert Trim(s) == t;
      a, b := TrimLeavesCore(Init(s));
      hide Trim;
      OneMoreSpace(Last(s), b);
      assert s == (a + t + b) + [Last(s)] == a + t + (b + [Last(s)]);
      b := b + [Last(s)];
    } else {
      a, b := "", "";
      NoSpaces();
      assert Trim(s) == s;
    }
  }

  /** Trimming takes off the white space around a text and nothing else. */
  lemma TrimIsTheCore(s: string, t: string)
    ensures t == Trim(s) <==> IsCore(s, t)
  {
    var a, b := TrimLeavesCore(s);
    if IsCore(s, t) {
      var a', b' :| s == a' + t + b' && AllSpace(a') && AllSpace(b');
      TrimOfCore(a', t, b');
    }
  }

  /** The line has "data:" after any white space, and this body after that. */
  ghost predicate Carries(line: string, body: string) {
    exists a, rest :: line == a + "data:" + rest && AllSpace(a) && IsCore(rest, body)
  }

  predicate IsTag(tag: string) { |tag| == 5 && !IsSpace(tag[0]) && !IsSpace(tag[4]) }

  lemma SpacesTwice(a: string, b: string)
    requires AllSpace(a) && AllSpace(b)
    ensures AllSpace(a + b)
  {
  }

  lemma CutTag(tag: string, line: string) returns (a: string, rest: string)
    requires IsTag(tag) && tag <= Trim(line)
    ensures line == a + tag + rest && AllSpace(a) && IsCore(rest, Trim(Trim(line)[5..]))
  {
    var l := Trim(line);
    var b, c, d;
    a, b := TrimLeavesCore(line);
    c, d := TrimLeavesCore(l[5..]);
    var body := Trim(l[5..]);
    hide Trim, IsSpace;
    rest := l[5..] + b;
    assert l == tag + l[5..];
    assert line == a + (tag + l[5..]) + b == a + tag + rest;
    SpacesTwice(d, b);
    assert rest == (c + body + d) + b == c + body + (d + b);
  }

  lemma Regrouped(a: string, tag: string, c: string, body: string, d: string)
    ensures a + tag + (c + body + d) == a + (tag + c + body) + d
  {
  }

  lemma TaggedEnds(tag: string, c: string, body: string)
    requires |tag| == 5 && body != ""
    ensures var l := tag + c + body; l != "" && l[0] == tag[0] && Last(l) == Last(body)
  {
  }

  lemma TrimTaggedBody(tag: string, a: string, c: string, body: string, d: string)
    requires IsTag(tag) && AllSpace(a) && AllSpace(c) && AllSpace(d)
    requires body != "" && !IsSpace(body[0]) && !IsSpace(Last(body))
    ensures Trim(a + tag + (c + body + d)) == tag + c + body
  {
    TaggedEnds(tag, c, body);
    hide Trim, IsSpace, AllSpace, Last;
    TrimOfCore(a, tag + c + body, d);
    Regrouped(a, tag, c, body, d);
  }

  lemma TrimTaggedNothing(tag: string, a: string, rest: string)
    requires IsTag(tag) && AllSpace(a) && AllSpace(rest)
    ensures Trim(a + tag + rest) == tag
  {
    assert Last(tag) == tag[4];
    hide Trim, IsSpace, AllSpace, Last;
    TrimOfCore(a, tag, rest);
  }

  lemma AfterTag(tag: string, c: string, body: string)
    requires |tag| == 5
    ensures tag <= tag + c + body && (tag + c + body)[5..] == c + body + ""
    ensures tag <= tag && tag[5..] == "" + "" + ""
  {
  }

  lemma BodyOfTagged(tag: string, a: string, rest: string, body: string)
    requires IsTag(tag) && AllSpace(a) && IsCore(rest, body)
    ensures tag <= Trim(a + tag + rest) && Trim(Trim(a + tag + rest)[5..]) == body
  {
    var c, d :| rest == c + body + d && AllSpace(c) && AllSpace(d);
    hide Trim, IsSpace, AllSpace, IsCore, Last;
    AfterTag(tag, c, body);
    NoSpaces();
    if body == "" {
      SpacesTwice(c, d);
      assert c + body + d == c + d;
      TrimTaggedNothing(tag, a, rest);
      TrimOfCore("", "", "");
    } else {
      TrimTaggedBody(tag, a, c, body, d);
      TrimOfCore(c, body, "");
    }
  }

  lemma DataTag()
    ensures IsTag("data:")
  {
  }

  lemma CarriesBody(line: string)
    ensures "data:" <= Trim(line) ==> Carries(line, Trim(Trim(line)[5..]))
  {
    hide Trim, IsCore, AllSpace;
    DataTag();
    if "data:" <= Trim(line) {
      var a, rest := CutTag("data:", line);
    }
  }

  lemma CarriedBody(line: string, body: string)
    requires Carries(line, body)
    ensures "data:" <= Trim(line) && Trim(Trim(line)[5..]) == body
  {
    hide Trim, IsCore, AllSpace;
    DataTag();
    var a, rest :| line == a + "data:" + rest && AllSpace(a) && IsCore(rest, body);
    BodyOfTagged("data:", a, rest, body);
  }

  /** The first reader takes a frame that begins, after white space, with "data:", and its body is the rest. */
  lemma VoiceBodyExact(frame: string, body: string)
    ensures VoiceBody(frame) == Some(body) <==> Carries(frame, body)
  {
    CarriesBody(frame);
    if Carries(frame, body) {
      CarriedBody(frame, body);
    }
  }

  function JoinLines(lines: seq<string>): string
    requires lines != []
  {
    if |lines| == 1 then lines[0] else lines[0] + "\n" + JoinLines(lines[1..])
  }

  /** `lines` is `s` cut at its line feeds. */
  ghost predicate AreLines(s: string, lines: seq<string>) {
    && lines != [] && JoinLines(lines) == s && forall i :: 0 <= i < |lines| ==> '\n' !in lines[i]
  }

  lemma {:induction false} LinesAreLines(s: string)
    ensures AreLines(s, Lines(s))
  {
    if s != "" {
      LinesAreLines(s[1..]);
      var rest := Lines(s[1..]);
      if s[0] == '\n' {
        assert ([""] + rest)[1..] == rest;
        assert "" + "\n" + s[1..] == s;
      } else {
        var whole := [[s[0]] + rest[0]] + rest[1..];
        assert whole[1..] == rest[1..];
        assert JoinLines(whole) == [s[0]] + JoinLines(rest);
      }
    }
  }

  lemma {:induction false} LinesAfter(line: string, rest: string)
    requires '\n' !in line
    ensures Lines(line + "\n" + rest) == [line] + Lines(rest)
  {
    var s := line + "\n" + rest;
    if line == "" {
      assert s[1..] == rest;
    } else {
      LinesAfter(line[1..], rest);
      assert s[1..] == line[1..] + "\n" + rest;
      assert [line[0]] + line[1..] == line;
    }
  }

  lemma {:induction false} OneLine(s: string)
    requires '\n' !in s
    ensures Lines(s) == [s]
  {
    if s != "" {
      OneLine(s[1..]);
      assert [s[0]] + s[1..] == s;
    }
  }

  /** A text has one cut into lines only. */
  lemma {:induction false} LinesAreTheOnlyCut(s: string, lines: seq<string>)
    ensures lines == Lines(s) <==> AreLines(s, lines)
    decreases |lines|
  {
    LinesAreLines(s);
    if AreLines(s, lines) {
      if |lines| == 1 {
        OneLine(s);
      } else {
        assert '\n' !in lines[0];
        LinesAreTheOnlyCut(JoinLines(lines[1..]), lines[1..]);
        LinesAfter(lines[0], JoinLines(lines[1..]));
      }
    }
  }

  /** Line `j` is the first that carries anything, and it carries `body`. */
  ghost predicate FirstCarrier(lines: seq<string>, j: nat, body: string) {
    && j < |lines| && Carries(lines[j], body)
    && forall i, b :: 0 <= i < j ==> !Carries(lines[i], b)
  }

  /** The first line that carries anything carries `body`. */
  ghost predicate CarriesFirst(lines: seq<string>, body: string) {
    exists j: nat :: FirstCarrier(lines, j, body)
  }

  lemma {:induction false} DataLineExact(lines: seq<string>, body: string)
    ensures DataLine(lines).Some? ==> "data:" <= DataLine(lines).value
    ensures (DataLine(lines).Some? && Trim(DataLine(lines).value[5..]) == body) <==> CarriesFirst(lines, body)
  {
    hide Trim, Carries;
    if lines != [] {
      var rest := lines[1..];
      DataLineExact(rest, body);
      CarriesBody(lines[0]);
      forall b | Carries(lines[0], b)
        ensures "data:" <= Trim(lines[0]) && Trim(Trim(lines[0])[5..]) == b
      {
        CarriedBody(lines[0], b);
      }
      if "data:" <= Trim(lines[0]) {
        assert Trim(Trim(lines[0])[5..]) == body ==> FirstCarrier(lines, 0, body);
        assert Carries(lines[0], Trim(Trim(lines[0])[5..]));
      } else {
        forall j: nat | FirstCarrier(rest, j, body)
          ensures FirstCarrier(lines, j + 1, body)
        {
          assert forall i :: 0 < i <= j + 1 ==> lines[i] == rest[i - 1];
        }
        forall j: nat | FirstCarrier(lines, j, body)
          ensures j > 0 && FirstCarrier(rest, j - 1, body)
        {
          assert j > 0;
          assert forall i :: 0 <= i < |rest| ==> lines[i + 1] == rest[i];
        }
      }
    }
  }

  /** The second reader takes the first line of a frame that begins, after white space, with "data:", wherever
      it stands. */
  lemma A2ABodyExact(frame: string, body: string)
    ensures A2ABody(frame) == Some(body) <==> CarriesFirst(Lines(frame), body)
  {
    hide CarriesFirst, DataLine, Lines, Trim;
    DataLineExact(Lines(frame), body);
  }

  // ---- The two loops ----------------------------------------------------------------------

  method YieldVoice<J>(parts: seq<string>, parse: string -> Option<J>) returns (events: seq<J>)
    ensures events == Delivered(parts, Reads(VoiceBody, parse))
  {
    hide Trim;
    events := [];
    for k := 0 to |parts|
      invariant events == Delivered(parts[..k], Reads(VoiceBody, parse))
    {
      assert Init(parts[..k + 1]) == parts[..k] && Last(parts[..k + 1]) == parts[k];
      ReadsOne(VoiceBody, parse, parts[k]);
      var line := Trim(parts[k]);
      if !("data:" <= line) {
        continue;
      }
      var event := parse(Trim(line[5..]));
      if event.Some? {
        events := events + [event.value];
      }
    }
    assert parts[..|parts|] == parts;
  }

  method FindDataLine(part: string) returns (line: string)
    ensures match DataLine(Lines(part))
            case None => line == ""
            case Some(l) => line == l && "data:" <= line
  {
    hide Trim, Lines;
    var lines := Lines(part);
    var i := 0;
    while i < |lines|
      invariant i <= |lines| && DataLine(lines) == DataLine(lines[i..])
    {
      line := Trim(lines[i]);
      if "data:" <= line {
        return;
      }
      i := i + 1;
    }
    line := "";
  }

  method YieldA2A<J>(parts: seq<string>, parse: string -> Option<J>) returns (events: seq<J>)
    ensures events == Delivered(parts, Reads(A2ABody, parse))
  {
    hide Trim, Lines;
    events := [];
    for k := 0 to |parts|
      invariant events == Delivered(parts[..k], Reads(A2ABody, parse))
    {
      assert Init(parts[..k + 1]) == parts[..k] && Last(parts[..k + 1]) == parts[k];
      ReadsOne(A2ABody, parse, parts[k]);
      var line := FindDataLine(parts[k]);
      if line == "" {
        continue;
      }
      var event := parse(Trim(line[5..]));
      if event.Some? {
        events := events + [event.value];
      }
    }
    assert parts[..|parts|] == parts;
  }

  /** One chunk more, read with what the earlier ones left over. */
  lemma ReadOn<J>(chunks: seq<string>, i: nat, read: string -> Option<J>)
    requires i < |chunks|
    ensures var (was, now) := (Split(Text(chunks[..i])), Split(Last(Split(Text(chunks[..i]))) + chunks[i]));
            && Delivered(Init(Split(Text(chunks[..i + 1]))), read) ==
               Delivered(Init(was), read) + Delivered(Init(now), read)
            && Last(Split(Text(chunks[..i + 1]))) == Last(now)
  {
    assert Init(chunks[..i + 1]) == chunks[..i];
    var was := Split(Text(chunks[..i]));
    SplitExtends(Text(chunks[..i]), chunks[i]);
    var now := Split(Last(was) + chunks[i]);
    assert Init(Init(was) + now) == Init(was) + Init(now);
    DeliveredAppends(Init(was), Init(now), read);
  }

  /** Reads a whole response: every complete frame of its text is read, in order, whatever the chunks; the
      unfinished frame at the end of the stream stays in `buf` and is discarded. */
  method VoiceStream<J>(chunks: seq<string>, parse: string -> Option<J>) returns (events: seq<J>, buf: string)
    ensures events == Delivered(Init(Split(Text(chunks))), Reads(VoiceBody, parse)) && buf == Last(Split(Text(chunks)))
  {
    events, buf := [], "";
    for i := 0 to |chunks|
      invariant events == Delivered(Init(Split(Text(chunks[..i]))), Reads(VoiceBody, parse))
      invariant buf == Last(Split(Text(chunks[..i])))
    {
      ReadOn(chunks, i, Reads(VoiceBody, parse));
      var parts := Split(buf + chunks[i]);
      buf := Last(parts);
      parts := Init(parts);
      var more := YieldVoice(parts, parse);
      events := events + more;
    }
    assert chunks[..|chunks|] == chunks;
  }

  method A2AStream<J>(chunks: seq<string>, parse: string -> Option<J>) returns (events: seq<J>, buf: string)
    ensures events == Delivered(Init(Split(Text(chunks))), Reads(A2ABody, parse)) && buf == Last(Split(Text(chunks)))
  {
    events, buf := [], "";
    for i := 0 to |chunks|
      invariant events == Delivered(Init(Split(Text(chunks[..i]))), Reads(A2ABody, parse))
      invariant buf == Last(Split(Text(chunks[..i])))
    {
      ReadOn(chunks, i, Reads(A2ABody, parse));
      var parts := Split(buf + chunks[i]);
      buf := Last(parts);
      parts := Init(parts);
      var more := YieldA2A(parts, parse);
      events := events + more;
    }
    assert chunks[..|chunks|] == chunks;
  }

  // ---- Round trip -------------------------------------------------------------------------

  /** A frame as the servers write it. */
  function Encode(bodies: seq<string>): string {
    if bodies == [] then "" else ("data: " + bodies[0]) + "\n\n" + Encode(bodies[1..])
  }

  function Framed(bodies: seq<string>): seq<string> {
    if bodies == [] then [] else ["data: " + bodies[0]] + Framed(bodies[1..])
  }

  /** A body on one line with nothing to trim. */
  predicate SingleLine(body: string) {
    body != "" && !IsSpace(body[0]) && !IsSpace(Last(body)) && '\n' !in body
  }

  function Values<J>(bodies: seq<string>, parse: string -> Option<J>): seq<J> {
    if bodies == [] then [] else
      match parse(bodies[0])
      case None => Values(bodies[1..], parse)
      case Some(j) => [j] + Values(bodies[1..], parse)
  }

  lemma {:induction false} SplitEncoded(bodies: seq<string>)
    requires forall i :: 0 <= i < |bodies| ==> SingleLine(bodies[i])
    ensures Split(Encode(bodies)) == Framed(bodies) + [""]
  {
    if bodies != [] {
      SplitEncoded(bodies[1..]);
      assert SingleLine(bodies[0]);
      assert Complete("data: " + bodies[0]);
      SplitFirst("data: " + bodies[0], Encode(bodies[1..]));
    }
  }

  lemma BodyOfFramed(body: string)
    requires SingleLine(body)
    ensures VoiceBody("data: " + body) == Some(body) && A2ABody("data: " + body) == Some(body)
  {
    var line := "data: " + body;
    assert Last(line) == Last(body) && line[5..] == " " + body && (" " + body)[1..] == body;
    assert Trim(line) == line && Trim(line[5..]) == Trim(body) == body;
    OneLine(line);
  }

  lemma DeliveredOne<J>(frame: string, b: string, body: string -> Option<string>, parse: string -> Option<J>)
    requires body(frame) == Some(b)
    ensures Delivered([frame], Reads(body, parse)) == match parse(b) case None => [] case Some(j) => [j]
  {
    ReadsOne(body, parse, frame);
    assert Init([frame]) == [];
  }

  lemma DeliveredNothing<J>(read: string -> Option<J>)
    ensures Delivered([], read) == []
  {
  }

  lemma {:induction false} DeliveredFramed<J>(bodies: seq<string>, body: string -> Option<string>,
                                              parse: string -> Option<J>)
    requires forall i :: 0 <= i < |bodies| ==> body("data: " + bodies[i]) == Some(bodies[i])
    ensures Delivered(Framed(bodies), Reads(body, parse)) == Values(bodies, parse)
  {
    hide Reads, Delivered;
    if bodies == [] {
      DeliveredNothing(Reads(body, parse));
    } else {
      var frame := "data: " + bodies[0];
      forall i | 0 <= i < |bodies[1..]|
        ensures body("data: " + bodies[1..][i]) == Some(bodies[1..][i])
      {
        assert body("data: " + bodies[i + 1]) == Some(bodies[i + 1]);
      }
      DeliveredFramed(bodies[1..], body, parse);
      DeliveredAppends([frame], Framed(bodies[1..]), Reads(body, parse));
      DeliveredOne(frame, bodies[0], body, parse);
      assert [] + Values(bodies[1..], parse) == Values(bodies[1..], parse);
    }
  }

  /** Bodies sent one frame each are delivered exactly, in order, for every way the network cuts them. */
  lemma RoundTrip<J>(bodies: seq<string>, chunks: seq<string>, parse: string -> Option<J>)
    requires forall i :: 0 <= i < |bodies| ==> SingleLine(bodies[i])
    requires Text(chunks) == Encode(bodies)
    ensures Delivered(Init(Split(Text(chunks))), Reads(VoiceBody, parse)) == Values(bodies, parse)
    ensures Delivered(Init(Split(Text(chunks))), Reads(A2ABody, parse)) == Values(bodies, parse)
    ensures Last(Split(Text(chunks))) == ""
  {
    SplitEncoded(bodies);
    forall i | 0 <= i < |bodies|
      ensures VoiceBody("data: " + bodies[i]) == Some(bodies[i]) && A2ABody("data: " + bodies[i]) == Some(bodies[i])
    {
      BodyOfFramed(bodies[i]);
    }
    DeliveredFramed(bodies, VoiceBody, parse);
    DeliveredFramed(bodies, A2ABody, parse);
    hide Split;
    assert Init(Framed(bodies) + [""]) == Framed(bodies);
  }

  /** A text completes no frame exactly when it has no two line feeds in a row. */
  lemma NoFrameExactly(text: string)
    ensures Init(Split(text)) == [] <==> !HasBreak(text)
  {
    SplitUnbroken(text);
    SplitCuts(text);
    if Init(Split(text)) == [] {
      assert Split(text) == [Split(text)[0]];
    }
  }

  /** So a stream whose line ends are all CR LF, which section 9.2.6 of the WHATWG HTML standard allows,
      delivers nothing, whatever it carries. */
  lemma CarriageReturnsDeliverNothing<J>(text: string, read: string -> Option<J>)
    requires forall i :: 0 <= i < |text| && text[i] == '\n' ==> i > 0 && text[i - 1] == '\r'
    ensures Init(Split(text)) == [] && Delivered(Init(Split(text)), read) == []
  {
    NoFrameExactly(text);
  }
}
