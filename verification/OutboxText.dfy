/**
 The text of an outbox: one line for each message, its fields separated by spaces.
 The timestamp has one space of its own, and a message may have any number.
 */
module OutboxText {
  import opened Options

  datatype Line = Line(stamp: string, id: string, kind: string, message: string)

  function Encode(l: Line): string {
    l.stamp + " " + l.id + " " + l.kind + " " + l.message + "\n"
  }

  function Text(lines: seq<Line>): string {
    if lines == [] then "" else Encode(lines[0]) + Text(lines[1..])
  }

  /** The file that messages are appended to. */
  class OutboxFile {
    var content: string
    ghost var lines: seq<Line>

    ghost predicate Valid()
      reads this
    {
      content == Text(lines)
    }

    constructor ()
      ensures Valid() && lines == []
    {
      content, lines := "", [];
    }

    method AppendMessage(stamp: string, id: string, kind: string, message: string)
      requires Valid()
      modifies this
      ensures Valid() && lines == old(lines) + [Line(stamp, id, kind, message)]
    {
      var line := Line(stamp, id, kind, message);
      TextAppend(lines, line);
      content := content + (stamp + " " + id + " " + kind + " " + message + "\n");
      lines := lines + [line];
    }
  }

  lemma {:induction false} TextAppend(lines: seq<Line>, l: Line)
    ensures Text(lines + [l]) == Text(lines) + Encode(l)
  {
    if lines == [] {
      assert Text([l]) == Encode(l) + Text([]) == Encode(l);
      assert lines + [l] == [l];
    } else {
      assert (lines + [l])[1..] == lines[1..] + [l];
      TextAppend(lines[1..], l);
    }
  }

  // ---------------------------------------------------------------- decoding

  /** Position of the first `c`, or the length. */
  function Index(s: string, c: char): (i: nat)
    ensures i <= |s| && c !in s[..i]
    ensures i < |s| ==> s[i] == c
  {
    if s == "" || s[0] == c then 0
    else
      var i := 1 + Index(s[1..], c);
      assert s[..i] == [s[0]] + s[1..][..i - 1];
      i
  }

  /** What precedes the first space, and what follows it. */
  function Cut(s: string): Option<(string, string)> {
    var i := Index(s, ' ');
    if i < |s| then Some((s[..i], s[i + 1..])) else None
  }

  function DecodeLine(s: string): Option<Line> {
    match Cut(s)
    case None => None
    case Some((day, s1)) =>
      match Cut(s1)
      case None => None
      case Some((time, s2)) =>
        match Cut(s2)
        case None => None
        case Some((id, s3)) =>
          match Cut(s3)
          case None => None
          case Some((kind, message)) => Some(Line(day + " " + time, id, kind, message))
  }

  function Decode(text: string): Option<seq<Line>>
    decreases |text|
  {
    if text == "" then Some([])
    else
      var n := Index(text, '\n');
      if n == |text| then None
      else
        match DecodeLine(text[..n])
        case None => None
        case Some(l) =>
          match Decode(text[n + 1..])
          case None => None
          case Some(ls) => Some([l] + ls)
  }

  /** What the timestamp format, the generated id and the message kinds guarantee. */
  ghost predicate WellFormed(l: Line) {
    && (exists day, time :: l.stamp == day + " " + time && ' ' !in day && ' ' !in time)
    && '\n' !in l.stamp && ' ' !in l.id && '\n' !in l.id && ' ' !in l.kind && '\n' !in l.kind
  }

  lemma IndexIs(s: string, c: char, i: nat)
    requires i <= |s| && c !in s[..i] && (i < |s| ==> s[i] == c)
    ensures Index(s, c) == i
  {
  }

  lemma CutIs(a: string, b: string)
    requires ' ' !in a
    ensures Cut(a + " " + b) == Some((a, b))
  {
    var s := a + " " + b;
    assert s[..|a|] == a && s[|a| + 1..] == b;
    IndexIs(s, ' ', |a|);
  }

  lemma LineRoundTrip(l: Line)
    requires WellFormed(l)
    ensures DecodeLine(l.stamp + " " + l.id + " " + l.kind + " " + l.message) == Some(l)
  {
    var day, time :| l.stamp == day + " " + time && ' ' !in day && ' ' !in time;
    var s3 := l.kind + " " + l.message;
    var s2 := l.id + " " + s3;
    var s1 := time + " " + s2;
    assert l.stamp + " " + l.id + " " + l.kind + " " + l.message == day + " " + s1;
    CutIs(day, s1);
    CutIs(time, s2);
    CutIs(l.id, s3);
    CutIs(l.kind, l.message);
  }

  /** The first line of a text, up to the first newline of its first message. */
  lemma FirstLine(l: Line, rest: string)
    requires WellFormed(l)
    ensures var text := Encode(l) + rest;
            var k := Index(l.message, '\n');
            var head := l.stamp + " " + l.id + " " + l.kind + " " + l.message[..k];
            && Index(text, '\n') == |head| < |text| && text[..|head|] == head
            && (k == |l.message| ==> text[|head| + 1..] == rest)
  {
    var text := Encode(l) + rest;
    var k := Index(l.message, '\n');
    var fields := l.stamp + " " + l.id + " " + l.kind + " ";
    var head := fields + l.message[..k];
    assert l.stamp + " " + l.id + " " + l.kind + " " + l.message[..k] == head;
    assert text == fields + (l.message + ("\n" + rest));
    assert text[..|head|] == head;
    assert text[|head|] == '\n';
    IndexIs(text, '\n', |head|);
  }

  /** Decoding takes off the first line as it was, or, when its message has a newline, another one. */
  lemma DecodeFirst(l: Line, rest: string)
    requires WellFormed(l)
    ensures var decoded := Decode(Encode(l) + rest);
            if '\n' in l.message then decoded.Some? ==> decoded.value != [] && decoded.value[0] != l
            else decoded == if Decode(rest).Some? then Some([l] + Decode(rest).value) else None
  {
    var k := Index(l.message, '\n');
    var cut := l.(message := l.message[..k]);
    assert WellFormed(cut) by {
      assert WellFormed(l);
    }
    FirstLine(l, rest);
    LineRoundTrip(cut);
    if k == |l.message| {
      assert l.message[..k] == l.message && cut == l;
    } else {
      assert l.message[k] == '\n' && '\n' !in cut.message;
    }
  }

  /** Decoding the text of any lines gives these lines back if and only if no message has a
      newline in it. */
  lemma {:induction false} TextRoundTrip(lines: seq<Line>)
    requires forall l | l in lines :: WellFormed(l)
    ensures Decode(Text(lines)) == Some(lines) <==> forall l | l in lines :: '\n' !in l.message
  {
    if lines != [] {
      DecodeFirst(lines[0], Text(lines[1..]));
      TextRoundTrip(lines[1..]);
      assert lines == [lines[0]] + lines[1..];
    }
  }

  /** Without newlines in the messages, no other lines have the same text. */
  lemma TextIsUnambiguous(a: seq<Line>, b: seq<Line>)
    requires forall l | l in a + b :: WellFormed(l) && '\n' !in l.message
    requires Text(a) == Text(b)
    ensures a == b
  {
    assert forall l | l in a :: l in a + b;
    assert forall l | l in b :: l in a + b;
    TextRoundTrip(a);
    TextRoundTrip(b);
  }
}
