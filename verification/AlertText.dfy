/** Lines joined into a text and split again, where a line may itself hold line breaks. */
module AlertText {
  /** `lines.join('\n') + '\n'` */
  function TextOf(lines: seq<string>): string {
    if lines == [] then "" else lines[0] + "\n" + TextOf(lines[1..])
  }

  function NewlineAt(s: string): (i: int)
    ensures -1 <= i < |s|
    ensures i >= 0 ==> s[i] == '\n'
    ensures forall j :: 0 <= j < (if i < 0 then |s| else i) ==> s[j] != '\n'
  {
    if s == [] then -1
    else if s[0] == '\n' then 0
    else
      var i := NewlineAt(s[1..]);
      if i < 0 then -1 else i + 1
  }

  function DropReturn(line: string): string {
    if line != [] && line[|line| - 1] == '\r' then line[..|line| - 1] else line
  }

  /** `text.split(/\r?\n/)` */
  function Split(text: string): seq<string> {
    var i := NewlineAt(text);
    if i < 0 then [text] else [DropReturn(text[..i])] + Split(text[i + 1..])
  }

  /** The lines that a pushed line becomes once the text is split. */
  function Pieces(line: string): (r: seq<string>)
    ensures r != []
  {
    var i := NewlineAt(line);
    if i < 0 then [DropReturn(line)] else [DropReturn(line[..i])] + Pieces(line[i + 1..])
  }

  function Flat(lines: seq<string>): seq<string> {
    if lines == [] then [] else Pieces(lines[0]) + Flat(lines[1..])
  }

  predicate OneLine(line: string) {
    '\n' !in line && (line == [] || line[|line| - 1] != '\r')
  }

  lemma FirstNewline(text: string, i: nat)
    requires i < |text| && text[i] == '\n' && forall j :: 0 <= j < i ==> text[j] != '\n'
    ensures NewlineAt(text) == i
  {
    hide NewlineAt;
  }

  lemma {:induction false} SplitPieces(line: string, rest: string)
    ensures Split(line + "\n" + rest) == Pieces(line) + Split(rest)
    decreases |line|
  {
    hide NewlineAt, DropReturn;
    var text, i := line + "\n" + rest, NewlineAt(line);
    if i < 0 {
      FirstNewline(text, |line|);
      assert text[..|line|] == line && text[|line| + 1..] == rest;
    } else {
      FirstNewline(text, i);
      assert text[..i] == line[..i] && text[i + 1..] == line[i + 1..] + "\n" + rest;
      SplitPieces(line[i + 1..], rest);
    }
  }

  /** Splitting the text gives the pieces of all its lines, and one empty line for the last line break. */
  lemma {:induction false} SplitText(lines: seq<string>)
    ensures Split(TextOf(lines)) == Flat(lines) + [""]
  {
    hide Split, Pieces;
    if lines == [] {
      SplitEmpty();
    } else {
      SplitText(lines[1..]);
      SplitPieces(lines[0], TextOf(lines[1..]));
      assert Flat(lines) + [""] == Pieces(lines[0]) + (Flat(lines[1..]) + [""]);
    }
  }

  lemma SplitEmpty()
    ensures Split("") == [""]
  {
  }

  lemma OnePiece(line: string)
    requires OneLine(line)
    ensures Pieces(line) == [line]
  {
    assert forall i :: 0 <= i < |line| ==> line[i] in line;
  }

  lemma FirstPiece(line: string, rest: string)
    requires OneLine(line)
    ensures Pieces(line + "\n" + rest) == [line] + Pieces(rest)
  {
    var text := line + "\n" + rest;
    assert forall i :: 0 <= i < |line| ==> line[i] in line;
    FirstNewline(text, |line|);
    assert text[..|line|] == line && text[|line| + 1..] == rest;
  }

  lemma {:induction false} FlatConcat(a: seq<string>, b: seq<string>)
    ensures Flat(a + b) == Flat(a) + Flat(b)
  {
    if a == [] {
      assert a + b == b;
    } else {
      hide Flat, Pieces;
      FlatConcat(a[1..], b);
      FlatStep(a);
      FlatStep(a + b);
      HeadAndTail(a, b);
      Regroup(Pieces(a[0]), Flat(a[1..]), Flat(b));
    }
  }

  lemma HeadAndTail(a: seq<string>, b: seq<string>)
    requires a != []
    ensures (a + b)[0] == a[0] && (a + b)[1..] == a[1..] + b
  {
  }

  lemma Regroup(x: seq<string>, y: seq<string>, z: seq<string>)
    ensures x + (y + z) == (x + y) + z
  {
  }

  lemma FlatStep(lines: seq<string>)
    requires lines != []
    ensures Flat(lines) == Pieces(lines[0]) + Flat(lines[1..])
  {
  }

  lemma FlatOne(line: string)
    ensures Flat([line]) == Pieces(line)
  {
    hide Pieces;
    assert [line][1..] == [];
    assert Flat([]) == [];
  }

  ghost predicate AllOneLine(lines: seq<string>) {
    forall i :: 0 <= i < |lines| ==> OneLine(lines[i])
  }

  lemma {:induction false} FlatOneLines(lines: seq<string>)
    requires AllOneLine(lines)
    ensures Flat(lines) == lines
  {
    hide OneLine, Pieces;
    if lines != [] {
      OnePiece(lines[0]);
      FlatOneLines(lines[1..]);
    }
  }

  lemma {:induction false} BarePieces(bare: seq<string>, last: string)
    requires AllOneLine(bare) && OneLine(last)
    ensures Pieces(TextOf(bare) + last) == bare + [last]
  {
    hide OneLine, Pieces;
    if bare == [] {
      assert TextOf(bare) + last == last;
      OnePiece(last);
    } else {
      BarePieces(bare[1..], last);
      assert TextOf(bare) + last == bare[0] + "\n" + (TextOf(bare[1..]) + last);
      FirstPiece(bare[0], TextOf(bare[1..]) + last);
    }
  }
}
