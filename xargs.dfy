/**
  The string and array logic of user/xargs.c: parseNextLine, which copies
  the next line of the input buffer into a line buffer and advances a
  cursor, and the filling of the argument vector handed to exec.
*/
module Xargs {

  /** Slots in the argument vector (MAXARG in kernel/param.h). */
  const MAXARG: nat := 32

  /** The characters that end a line for parseNextLine. */
  predicate IsTerminator(c: char)
  {
    c == '\n' || c == '\0'
  }

  predicate HasTerminator(s: seq<char>)
  {
    exists j :: 0 <= j < |s| && IsTerminator(s[j])
  }

  /** The number of characters before the first newline or NUL of s. */
  function LineLength(s: seq<char>): (n: nat)
    requires HasTerminator(s)
    ensures n < |s| && IsTerminator(s[n])
    ensures forall k :: 0 <= k < n ==> !IsTerminator(s[k])
  {
    if IsTerminator(s[0]) then 0
    else
      assert HasTerminator(s[1..]) by {
        var j :| 0 <= j < |s| && IsTerminator(s[j]);
        assert s[1..][j - 1] == s[j];
      }
      1 + LineLength(s[1..])
  }

  /** parseNextLine, with `cursor` the position in buf that the cursor
      argument points at.  At a NUL it returns 0 and leaves both the cursor and `line` alone.
      Otherwise `line` receives the characters before the first newline or
      NUL, then a NUL, the result is their number, and the cursor moves one
      past the terminator, past the NUL itself if the input ends without a
      newline.  `maxLen` is not consulted: `line` must already be long
      enough, which is the caller's obligation. */
  method ParseNextLine(buf: array<char>, cursor: nat, line: array<char>, maxLen: int) returns (n: nat, next: nat)
    requires buf != line
    requires cursor < buf.Length && HasTerminator(buf[cursor..])
    requires buf[cursor] != '\0' ==> LineLength(buf[cursor..]) < line.Length
    modifies line
    ensures buf[cursor] == '\0' ==> n == 0 && next == cursor && line[..] == old(line[..])
    ensures buf[cursor] != '\0' ==>
              && n == LineLength(buf[cursor..])
              && line[..n] == buf[cursor..cursor + n]
              && line[n] == '\0'
              && line[n + 1..] == old(line[n + 1..])
              && next == cursor + n + 1
              && IsTerminator(buf[next - 1])
    ensures buf[cursor] == '\n' ==> n == 0 && next == cursor + 1
  {
    if buf[cursor] == '\0' {
      return 0, cursor;
    }
    ghost var len := LineLength(buf[cursor..]);
    var p := cursor;
    while buf[p] != '\n' && buf[p] != '\0'
      invariant cursor <= p <= cursor + len
      decreases cursor + len - p
    {
      assert buf[cursor..][p - cursor] == buf[p];
      p := p + 1;
    }
    assert buf[cursor..][p - cursor] == buf[p];
    n := p - cursor;
    forall k | 0 <= k < n {
      line[k] := buf[cursor + k];
    }
    line[n] := '\0';
    assert forall k :: 0 <= k < n ==> line[..n][k] == buf[cursor..cursor + n][k];
    assert buf[cursor..] == old(buf[cursor..]);
    next := p + 1;
  }

  /** The loop of main that copies argv[1..] into the front of xArgv. */
  method FillArgv(argv: seq<string>, xArgv: array<string>)
    requires xArgv.Length == MAXARG && 1 <= |argv| <= MAXARG + 1
    modifies xArgv
    ensures forall i :: 0 <= i < |argv| - 1 ==> xArgv[i] == argv[i + 1]
    ensures forall i :: |argv| - 1 <= i < MAXARG ==> xArgv[i] == old(xArgv[i])
  {
    var i := 0;
    while i < |argv| - 1
      invariant 0 <= i <= |argv| - 1
      invariant forall j :: 0 <= j < i ==> xArgv[j] == argv[j + 1]
      invariant forall j :: i <= j < MAXARG ==> xArgv[j] == old(xArgv[j])
    {
      xArgv[i] := argv[i + 1];
      i := i + 1;
    }
  }

  /** In the child, the line becomes the argument after the command's own,
      in slot argc - 1. */
  method SetLineArg(argc: nat, xArgv: array<string>, line: string)
    requires xArgv.Length == MAXARG && 1 <= argc <= MAXARG
    modifies xArgv
    ensures xArgv[argc - 1] == line
    ensures forall i :: 0 <= i < MAXARG && i != argc - 1 ==> xArgv[i] == old(xArgv[i])
  {
    xArgv[argc - 1] := line;
  }

  /** What exec receives, as far as xargs writes it: the command and its
      arguments from argv, then the line.  The slots are filled by
      FillArgv followed by SetLineArg; the slot after them is not written. */
  method BuildExecArgs(argv: seq<string>, xArgv: array<string>, line: string)
    requires xArgv.Length == MAXARG && 1 <= |argv| <= MAXARG
    modifies xArgv
    ensures xArgv[..|argv|] == argv[1..] + [line]
    ensures xArgv[|argv|..] == old(xArgv[|argv|..])
  {
    FillArgv(argv, xArgv);
    SetLineArg(|argv|, xArgv, line);
    assert xArgv[..|argv|] == argv[1..] + [line] by {
      forall i | 0 <= i < |argv| ensures xArgv[i] == (argv[1..] + [line])[i] {
        if i < |argv| - 1 {
          assert argv[1..][i] == argv[i + 1];
        }
      }
    }
  }
}
