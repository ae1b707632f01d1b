// UncommentCode on text: find a commented block, strip the prefix from its lines, splice
// the result back. File reading and writing are left to the caller.
module Uncomment {
  import opened Resources

  // ---- Library calls the code relies on ----

  function IndexFrom(s: string, t: string, i: nat): Option<nat>
    requires i <= |s|
    decreases |s| - i
  {
    if t <= s[i..] then Some(i) else if i == |s| then None else IndexFrom(s, t, i + 1)
  }

  function Index(s: string, t: string): Option<nat> {
    IndexFrom(s, t, 0)
  }

  // t starts at i in s.
  predicate Occurs(s: string, t: string, i: nat) {
    i <= |s| && t <= s[i..]
  }

  lemma {:induction false} IndexFromFirst(s: string, t: string, i: nat)
    requires i <= |s|
    ensures match IndexFrom(s, t, i)
            case Some(k) => i <= k && Occurs(s, t, k) && forall j: nat | i <= j < k :: !Occurs(s, t, j)
            case None => forall j: nat | i <= j :: !Occurs(s, t, j)
    decreases |s| - i
  {
    if !(t <= s[i..]) && i < |s| {
      IndexFromFirst(s, t, i + 1);
    }
  }

  function TrimPrefix(s: string, prefix: string): string {
    if prefix <= s then s[|prefix|..] else s
  }

  function DropCR(s: string): string {
    if s != "" && s[|s| - 1] == '\r' then s[..|s| - 1] else s
  }

  // A line this long overflows the scanner's buffer and silently ends the scan.
  const MAX_LINE := 65536

  function LineEnd(s: string): nat
    ensures LineEnd(s) <= |s| && '\n' !in s[..LineEnd(s)]
    ensures LineEnd(s) < |s| ==> s[LineEnd(s)] == '\n'
  {
    if s == "" || s[0] == '\n' then 0 else 1 + LineEnd(s[1..])
  }

  // The lines a scanner yields: no empty last line, no trailing carriage return.
  function Tokens(s: string): seq<string>
    decreases |s|
  {
    if s == "" || LineEnd(s) >= MAX_LINE then []
    else [DropCR(s[..LineEnd(s)])] + (if LineEnd(s) == |s| then [] else Tokens(s[LineEnd(s) + 1..]))
  }

  class Scanner {
    var rest: string
    var text: string

    constructor (s: string)
      ensures rest == s
    {
      rest, text := s, "";
    }

    method Scan() returns (more: bool)
      modifies this
      ensures more == (Tokens(old(rest)) != [])
      ensures more ==> Tokens(old(rest)) == [text] + Tokens(rest) && |rest| < |old(rest)|
    {
      var n := LineEnd(rest);
      if rest == "" || n >= MAX_LINE {
        return false;
      }
      text := DropCR(rest[..n]);
      rest := if n == |rest| then "" else rest[n + 1..];
      return true;
    }
  }

  // ---- The function ----

  datatype Result = TargetMissing | FileUntouched | Written(text: string)

  function Join(lines: seq<string>): string {
    if lines == [] then ""
    else if |lines| == 1 then lines[0]
    else lines[0] + "\n" + Join(lines[1..])
  }

  function TrimAll(lines: seq<string>, prefix: string): (out: seq<string>)
    ensures |out| == |lines| && forall i | 0 <= i < |lines| :: out[i] == TrimPrefix(lines[i], prefix)
  {
    if lines == [] then [] else [TrimPrefix(lines[0], prefix)] + TrimAll(lines[1..], prefix)
  }

  function Uncommented(content: string, target: string, prefix: string): Result {
    match Index(content, target)
    case None => TargetMissing
    case Some(i) =>
      if Tokens(target) == [] then FileUntouched
      else if i + |target| <= |content| then
        Written(content[..i] + Join(TrimAll(Tokens(target), prefix)) + content[i + |target|..])
      else TargetMissing
  }

  method UncommentCode(content: string, target: string, prefix: string) returns (r: Result)
    ensures r == Uncommented(content, target, prefix)
  {
    hide IndexFrom, Tokens, TrimPrefix;
    var idx := Index(content, target);
    if idx.None? {
      return TargetMissing;
    }
    IndexFromFirst(content, target, 0);
    var i := idx.value;
    var out := content[..i];
    var scanner := new Scanner(target);
    var more := scanner.Scan();
    if !more {
      return FileUntouched;
    }
    ghost var all := content[..i] + Join(TrimAll(Tokens(target), prefix));
    while true
      invariant out + Join(TrimAll([scanner.text] + Tokens(scanner.rest), prefix)) == all
      decreases |scanner.rest|
    {
      ghost var tokens := [scanner.text] + Tokens(scanner.rest);
      assert TrimAll(tokens, prefix) == [TrimPrefix(scanner.text, prefix)] + TrimAll(Tokens(scanner.rest), prefix) by {
        assert tokens[1..] == Tokens(scanner.rest);
      }
      out := out + TrimPrefix(scanner.text, prefix);
      ghost var left := Tokens(scanner.rest);
      more := scanner.Scan();
      if !more {
        break;
      }
      out := out + "\n";
    }
    return Written(out + content[i + |target|..]);
  }

  // outs are the lines, each without the prefix if it has one, and as it is otherwise.
  ghost predicate Stripped(lines: seq<string>, outs: seq<string>, prefix: string) {
    && |outs| == |lines|
    && forall k | 0 <= k < |lines| ::
         if prefix <= lines[k] then lines[k] == prefix + outs[k] else outs[k] == lines[k]
  }

  lemma TrimStrips(lines: seq<string>, prefix: string)
    ensures Stripped(lines, TrimAll(lines, prefix), prefix)
  {
    var outs := TrimAll(lines, prefix);
    forall k | 0 <= k < |lines|
      ensures if prefix <= lines[k] then lines[k] == prefix + outs[k] else outs[k] == lines[k]
    {
      assert outs[k] == TrimPrefix(lines[k], prefix);
      if prefix <= lines[k] {
        assert lines[k] == lines[k][..|prefix|] + lines[k][|prefix|..];
      }
    }
  }

  // r.text is content with the target at i replaced by the joined outs.
  ghost predicate Splices(content: string, target: string, i: nat, outs: seq<string>, text: string) {
    && Occurs(content, target, i) && i + |target| <= |content|
    && content == content[..i] + target + content[i + |target|..]
    && text == content[..i] + Join(outs) + content[i + |target|..]
  }

  ghost predicate First(content: string, target: string, i: nat) {
    Occurs(content, target, i) && forall j: nat | j < i :: !Occurs(content, target, j)
  }

  lemma FrameAt(content: string, target: string, prefix: string, i: nat)
    requires Index(content, target) == Some(i) && Tokens(target) != []
    ensures First(content, target, i)
    ensures Uncommented(content, target, prefix).Written?
    ensures Splices(content, target, i, TrimAll(Tokens(target), prefix), Uncommented(content, target, prefix).text)
  {
    hide IndexFrom, Join, TrimAll, Tokens, TrimPrefix;
    IndexFromFirst(content, target, 0);
    assert content[i..] == target + content[i + |target|..];
  }

  // The call fails exactly if the target does not occur, and leaves the file untouched exactly
  // if there is nothing to scan. Otherwise what surrounds the first occurrence is kept, and
  // in its place come the scanned lines, stripped of the prefix, with newlines between them.
  lemma Frame(content: string, target: string, prefix: string)
    ensures var r := Uncommented(content, target, prefix);
      && (r.TargetMissing? <==> forall i: nat :: !Occurs(content, target, i))
      && (r.FileUntouched? <==> !r.TargetMissing? && Tokens(target) == [])
      && (r.Written? ==>
            exists i: nat, outs: seq<string> ::
              First(content, target, i) && Stripped(Tokens(target), outs, prefix)
              && Splices(content, target, i, outs, r.text))
  {
    hide IndexFrom, Join, TrimAll, Tokens, TrimPrefix, Stripped, First, Splices;
    IndexFromFirst(content, target, 0);
    TrimStrips(Tokens(target), prefix);
    var r := Uncommented(content, target, prefix);
    if r.Written? {
      var i := Index(content, target).value;
      FrameAt(content, target, prefix, i);
      assert First(content, target, i) && Splices(content, target, i, TrimAll(Tokens(target), prefix), r.text);
    }
  }

  // ---- Commenting a block out and back in ----

  // Lines as an editor sees them: a trailing newline leaves an empty last line.
  function Split(s: string): (lines: seq<string>)
    ensures lines != [] && forall i | 0 <= i < |lines| :: '\n' !in lines[i]
    decreases |s|
  {
    if LineEnd(s) == |s| then [s] else [s[..LineEnd(s)]] + Split(s[LineEnd(s) + 1..])
  }

  function PrefixAll(lines: seq<string>, prefix: string): (out: seq<string>)
    ensures |out| == |lines| && forall i | 0 <= i < |lines| :: out[i] == prefix + lines[i]
  {
    if lines == [] then [] else [prefix + lines[0]] + PrefixAll(lines[1..], prefix)
  }

  function CommentOut(block: string, prefix: string): string {
    Join(PrefixAll(Split(block), prefix))
  }

  ghost predicate NewlineFree(lines: seq<string>) {
    forall i | 0 <= i < |lines| :: '\n' !in lines[i]
  }

  lemma {:induction false} LineEndOf(line: string, rest: string)
    requires '\n' !in line
    ensures LineEnd(line) == |line| && LineEnd(line + "\n" + rest) == |line|
    ensures (line + "\n" + rest)[|line| + 1..] == rest && (line + "\n" + rest)[..|line|] == line
    decreases |line|
  {
    if line != "" {
      assert (line + "\n" + rest)[1..] == line[1..] + "\n" + rest;
      LineEndOf(line[1..], rest);
    }
  }

  lemma {:induction false} SplitUndoesJoin(lines: seq<string>)
    requires lines != [] && NewlineFree(lines)
    ensures Split(Join(lines)) == lines
  {
    if |lines| == 1 {
      LineEndOf(lines[0], "");
    } else {
      LineEndOf(lines[0], Join(lines[1..]));
      SplitUndoesJoin(lines[1..]);
    }
  }

  lemma {:induction false} JoinUndoesSplit(s: string)
    ensures Join(Split(s)) == s
    decreases |s|
  {
    var n := LineEnd(s);
    if n < |s| {
      var rest := Split(s[n + 1..]);
      JoinUndoesSplit(s[n + 1..]);
      assert ([s[..n]] + rest)[1..] == rest;
      assert Join([s[..n]] + rest) == s[..n] + "\n" + Join(rest);
    }
  }

  // What scanning and trimming make of the commented lines.
  ghost function Restored(lines: seq<string>, prefix: string): seq<string>
    requires lines != []
  {
    var c := prefix + lines[0];
    if |c| >= MAX_LINE || (|lines| == 1 && c == "") then []
    else [TrimPrefix(DropCR(c), prefix)] + (if |lines| == 1 then [] else Restored(lines[1..], prefix))
  }

  lemma {:induction false} ScanOfCommented(lines: seq<string>, prefix: string)
    requires lines != [] && NewlineFree(lines) && '\n' !in prefix
    ensures TrimAll(Tokens(Join(PrefixAll(lines, prefix))), prefix) == Restored(lines, prefix)
  {
    var cs := PrefixAll(lines, prefix);
    var c := cs[0];
    if |lines| == 1 {
      LineEndOf(c, "");
      assert c[..|c|] == c;
    } else {
      assert cs[1..] == PrefixAll(lines[1..], prefix);
      LineEndOf(c, Join(cs[1..]));
      ScanOfCommented(lines[1..], prefix);
      var s, tail := Join(cs), Tokens(Join(cs[1..]));
      if |c| < MAX_LINE {
        assert Tokens(s) == [DropCR(c)] + tail;
        assert ([DropCR(c)] + tail)[1..] == tail;
      }
    }
  }

  // The line survives: it fits the scanner's buffer and the scanner drops nothing of it.
  ghost predicate LineSafe(line: string, prefix: string) {
    && |prefix| + |line| < MAX_LINE
    && (line != "" ==> line[|line| - 1] != '\r')
    && (line == "" && |prefix| >= 2 ==> prefix[|prefix| - 1] != '\r')
  }

  ghost predicate BlockSafe(lines: seq<string>, prefix: string) {
    && (forall i | 0 <= i < |lines| :: LineSafe(lines[i], prefix))
    && (prefix == "" && lines != [] ==> lines[|lines| - 1] != "")
  }

  lemma LineRestored(line: string, prefix: string)
    requires |prefix| + |line| < MAX_LINE
    ensures TrimPrefix(DropCR(prefix + line), prefix) == line <==> LineSafe(line, prefix)
  {
    var c := prefix + line;
    if line != "" {
      assert c[|c| - 1] == line[|line| - 1];
      if c[|c| - 1] == '\r' {
        assert DropCR(c) == prefix + line[..|line| - 1];
      }
      assert (prefix + line)[|prefix|..] == line;
    } else {
      assert c == prefix;
    }
  }

  lemma LongUnsafe(line: string, prefix: string)
    requires |prefix| + |line| >= MAX_LINE
    ensures !LineSafe(line, prefix)
  {
  }

  lemma SafeHead(lines: seq<string>, prefix: string)
    requires |lines| > 1
    ensures BlockSafe(lines, prefix) <==> LineSafe(lines[0], prefix) && BlockSafe(lines[1..], prefix)
  {
    forall i | 0 <= i < |lines[1..]| ensures lines[1..][i] == lines[i + 1] {}
    if LineSafe(lines[0], prefix) && BlockSafe(lines[1..], prefix) {
      forall i | 0 <= i < |lines| ensures LineSafe(lines[i], prefix) {
        if i > 0 { assert lines[i] == lines[1..][i - 1]; }
      }
    }
  }

  lemma {:induction false} RestoredExactly(lines: seq<string>, prefix: string)
    requires lines != []
    ensures Restored(lines, prefix) == lines <==> BlockSafe(lines, prefix)
    ensures |Restored(lines, prefix)| <= |lines|
  {
    hide LineSafe, TrimPrefix, DropCR;
    var c, head := prefix + lines[0], TrimPrefix(DropCR(prefix + lines[0]), prefix);
    if |c| < MAX_LINE {
      LineRestored(lines[0], prefix);
      if |lines| > 1 {
        var tail := Restored(lines[1..], prefix);
        RestoredExactly(lines[1..], prefix);
        SafeHead(lines, prefix);
        assert lines == [lines[0]] + lines[1..];
        assert [head] + tail == lines <==> head == lines[0] && tail == lines[1..] by {
          assert ([head] + tail)[0] == head && ([head] + tail)[1..] == tail;
        }
      }
    } else {
      LongUnsafe(lines[0], prefix);
    }
  }

  lemma TrimStaysNewlineFree(lines: seq<string>, prefix: string)
    requires lines != [] && NewlineFree(lines) && '\n' !in prefix
    ensures NewlineFree(Restored(lines, prefix))
  {
    if |lines| > 1 {
      TrimStaysNewlineFree(lines[1..], prefix);
    }
  }

  // Commenting out the lines of a block and uncommenting gives the file back exactly when
  // every line is safe and, if the prefix is empty, the block does not end in an empty
  // line. The commented block must not also occur earlier in the file.
  lemma RoundTripExactly(before: string, block: string, after: string, prefix: string)
    requires '\n' !in prefix
    requires var c := CommentOut(block, prefix); Index(before + c + after, c) == Some(|before|)
    ensures var c := CommentOut(block, prefix);
      Uncommented(before + c + after, c, prefix) == Written(before + block + after) <==> BlockSafe(Split(block), prefix)
  {
    hide Tokens, TrimAll, Join, Split, BlockSafe, Restored, PrefixAll, TrimPrefix;
    var c, lines := CommentOut(block, prefix), Split(block);
    var back := Restored(lines, prefix);
    ScanOfCommented(lines, prefix);
    RestoredExactly(lines, prefix);
    assert (before + c + after)[..|before|] == before && (before + c + after)[|before| + |c|..] == after;
    if back != [] {
      TrimStaysNewlineFree(lines, prefix);
      SplitUndoesJoin(back);
      JoinUndoesSplit(block);
      if before + Join(back) + after == before + block + after {
        SameMiddle(before, Join(back), block, after);
      }
    }
  }

  lemma SameMiddle(a: string, x: string, y: string, b: string)
    requires a + x + b == a + y + b
    ensures x == y
  {
    assert |x| == |y|;
    assert x == (a + x + b)[|a|..|a| + |x|];
    assert y == (a + y + b)[|a|..|a| + |y|];
  }

  // ---- A target that is not commented ----

  // ts is what a scanner makes of the lines: one token a line, without the one carriage
  // return a line may end in, up to a line of 65536 characters or an empty last line.
  ghost predicate Scanned(lines: seq<string>, ts: seq<string>) {
    && |ts| <= |lines|
    && (forall k | 0 <= k < |ts| ::
          && |lines[k]| < 65536
          && lines[k] == if lines[k] != "" && lines[k][|lines[k]| - 1] == '\r' then ts[k] + "\r" else ts[k])
    && (|ts| < |lines| ==> |lines[|ts|]| >= 65536 || (|ts| == |lines| - 1 && lines[|ts|] == ""))
  }

  lemma ScansExactly(s: string)
    ensures Scanned(Split(s), Tokens(s))
    ensures Tokens(s) == Split(s) <==> BlockSafe(Split(s), "")
  {
    var lines := Split(s);
    PrefixNothing(lines);
    JoinUndoesSplit(s);
    ScanOfCommented(lines, "");
    RestoredExactly(lines, "");
    TrimNothing(Tokens(s));
    ScannedOf(lines);
  }

  lemma PrefixNothing(lines: seq<string>)
    ensures PrefixAll(lines, "") == lines
  {
    forall i | 0 <= i < |lines| ensures PrefixAll(lines, "")[i] == lines[i] {
      assert "" + lines[i] == lines[i];
    }
  }

  lemma TrimNothing(lines: seq<string>)
    ensures TrimAll(lines, "") == lines
  {
    forall i | 0 <= i < |lines| ensures TrimAll(lines, "")[i] == lines[i] {
      assert TrimAll(lines, "")[i] == TrimPrefix(lines[i], "");
    }
  }

  lemma {:induction false} ScannedOf(lines: seq<string>)
    requires lines != []
    ensures Scanned(lines, Restored(lines, ""))
  {
    assert "" + lines[0] == lines[0];
    assert TrimPrefix(DropCR(lines[0]), "") == DropCR(lines[0]);
    DropsOne(lines[0]);
    if |lines| > 1 && |lines[0]| < MAX_LINE {
      ScannedOf(lines[1..]);
      ScannedMore(lines, Restored(lines[1..], ""));
    }
  }

  lemma DropsOne(line: string)
    ensures line == if line != "" && line[|line| - 1] == '\r' then DropCR(line) + "\r" else DropCR(line)
  {
  }

  lemma ScannedMore(lines: seq<string>, ts: seq<string>)
    requires |lines| > 1 && Scanned(lines[1..], ts) && |lines[0]| < 65536
    ensures Scanned(lines, [DropCR(lines[0])] + ts)
  {
    DropsOne(lines[0]);
    var all := [DropCR(lines[0])] + ts;
    forall k | 0 <= k < |all|
      ensures |lines[k]| < 65536
      ensures lines[k] == if lines[k] != "" && lines[k][|lines[k]| - 1] == '\r' then all[k] + "\r" else all[k]
    {
      if k > 0 {
        assert all[k] == ts[k - 1] && lines[k] == lines[1..][k - 1];
      }
    }
  }

  // If no line of the target starts with the prefix, the file keeps its text exactly if the
  // scanner yields the target's lines as they are: each within its limit, without a trailing
  // carriage return, and no empty last line.
  lemma UnchangedExactly(content: string, target: string, prefix: string)
    requires Index(content, target).Some?
    requires forall k | 0 <= k < |Split(target)| :: !(prefix <= Split(target)[k])
    ensures Uncommented(content, target, prefix) == Written(content) <==> BlockSafe(Split(target), "")
  {
    hide IndexFrom, BlockSafe, LineSafe, Tokens, TrimPrefix, TrimAll, Join, Split, Occurs, Scanned;
    var i, tokens := Index(content, target).value, Tokens(target);
    ScansExactly(target);
    JoinUndoesSplit(target);
    if tokens != [] {
      FrameAt(content, target, prefix, i);
      NothingToTrim(target, prefix);
      TokensNewlineFree(target);
      SplitUndoesJoin(tokens);
      if content[..i] + Join(tokens) + content[i + |target|..] == content {
        SameMiddle(content[..i], Join(tokens), target, content[i + |target|..]);
      }
    }
  }

  lemma TokensNewlineFree(s: string)
    ensures NewlineFree(Tokens(s))
  {
    hide Tokens, LineEnd;
    ScansExactly(s);
    var lines, ts := Split(s), Tokens(s);
    forall k | 0 <= k < |ts| ensures '\n' !in ts[k] {
      assert ts[k] <= lines[k];
    }
  }

  lemma NothingToTrim(target: string, prefix: string)
    requires forall k | 0 <= k < |Split(target)| :: !(prefix <= Split(target)[k])
    ensures TrimAll(Tokens(target), prefix) == Tokens(target)
  {
    hide Tokens;
    var tokens := Tokens(target);
    ScansExactly(target);
    forall k | 0 <= k < |tokens| ensures TrimAll(tokens, prefix)[k] == tokens[k] {
      assert tokens[k] <= Split(target)[k];
      NotPrefixed(tokens[k], Split(target)[k], prefix);
    }
  }

  lemma NotPrefixed(part: string, line: string, prefix: string)
    requires part <= line && !(prefix <= line)
    ensures !(prefix <= part)
  {
  }
}
