/**
 * The string operations the command dispatcher relies on:
 * `String.prototype.startsWith` and `text.split(" ")[1]`.
 * A JavaScript string is a `seq<char>`; every command token the bot knows
 * lies in the Basic Multilingual Plane, so one UTF-16 unit is one `char`.
 */
module Text {
  import opened Wrappers

  /** `s.startsWith(prefix)` */
  predicate StartsWith(s: string, prefix: string) {
    |prefix| <= |s| && s[..|prefix|] == prefix
  }

  /** Glues pieces back together with a single space between neighbours. */
  function Join(pieces: seq<string>): string
    requires |pieces| >= 1
    decreases |pieces|
  {
    if |pieces| == 1 then pieces[0] else pieces[0] + " " + Join(pieces[1..])
  }

  /**
   * `s.split(" ")`: the maximal space-free runs of `s`, in order, including
   * the empty runs between two adjacent spaces and at either end.
   * The result is never empty, no piece holds a space, and joining the pieces
   * with single spaces gives back `s`.
   */
  function Split(s: string): (pieces: seq<string>)
    ensures |pieces| >= 1
    ensures forall k :: 0 <= k < |pieces| ==> ' ' !in pieces[k]
    ensures Join(pieces) == s
    decreases |s|
  {
    if s == [] then [""]
    else
      var rest := Split(s[1..]);
      if s[0] == ' ' then
        assert ([""] + rest)[1..] == rest;
        [""] + rest
      else
        var pieces := [[s[0]] + rest[0]] + rest[1..];
        assert pieces[1..] == rest[1..];
        assert s == [s[0]] + s[1..];
        pieces
  }

  /** `text.split(" ")[1]`, with `undefined` as `None`. */
  function SecondToken(text: string): Option<string> {
    var pieces := Split(text);
    if |pieces| >= 2 then Some(pieces[1]) else None
  }

  /** Splitting a space-free string yields that string alone. */
  lemma {:induction false} SplitSpaceFree(s: string)
    requires ' ' !in s
    ensures Split(s) == [s]
    decreases |s|
  {}

  /** A space-free word followed by a space splits off as the first piece. */
  lemma {:induction false} SplitCons(word: string, tail: string)
    requires ' ' !in word
    ensures Split(word + " " + tail) == [word] + Split(tail)
    decreases |word|
  {
    var s := word + " " + tail;
    if word == [] {
      assert s == " " + tail;
      assert s[1..] == tail;
    } else {
      assert s[0] == word[0];
      assert s[1..] == word[1..] + " " + tail;
      assert ' ' !in word[1..] by {
        forall k | 0 <= k < |word[1..]| ensures word[1..][k] != ' ' { assert word[1..][k] == word[k + 1]; }
      }
      SplitCons(word[1..], tail);
      assert [word[0]] + word[1..] == word;
    }
  }

  /**
   * `Split` is the only way to cut a string into space-free pieces that
   * join back to it: it is the inverse of `Join` on space-free pieces.
   */
  lemma {:induction false} SplitJoin(pieces: seq<string>)
    requires |pieces| >= 1
    requires forall k :: 0 <= k < |pieces| ==> ' ' !in pieces[k]
    ensures Split(Join(pieces)) == pieces
    decreases |pieces|
  {
    if |pieces| == 1 {
      SplitSpaceFree(pieces[0]);
    } else {
      SplitJoin(pieces[1..]);
      SplitCons(pieces[0], Join(pieces[1..]));
      assert [pieces[0]] + pieces[1..] == pieces;
    }
  }

  /** `split(" ")[1]` is `undefined` exactly when the text holds no space. */
  lemma SecondTokenAbsent(text: string)
    ensures SecondToken(text).None? <==> ' ' !in text
  {}

  /**
   * The argument of a command is the token after the first space, up to the
   * next space: any further tokens are ignored.
   */
  lemma SecondTokenOf(command: string, arg: string, more: string)
    requires ' ' !in command && ' ' !in arg
    ensures SecondToken(command + " " + arg) == Some(arg)
    ensures SecondToken(command + " " + arg + " " + more) == Some(arg)
  {
    SplitCons(command, arg);
    SplitSpaceFree(arg);
    SplitCons(command, arg + " " + more);
    SplitCons(arg, more);
    assert command + " " + arg + " " + more == command + " " + (arg + " " + more);
  }
}
