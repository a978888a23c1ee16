/** Values shared by every part of the bot model: optional values, the
    exceptions the Python code can raise, and the two string operations
    the command router relies on (`str.split()` and `str.lower()`). */
module Common {

  datatype Option<+T> = None | Some(value: T)

  /** The Python exceptions that can escape from the modelled code. */
  datatype Error =
    | ValueError(detail: string)
    | KeyError(detail: string)
    | AttributeError(detail: string)
    | IndexError

  datatype Result<+T> = Ok(value: T) | Err(error: Error)

  /** Characters `str.split()` treats as separators (the ASCII and Latin-1 ones). */
  predicate IsSpace(c: char) {
    c == ' ' || c == '\t' || c == '\n' || c == '\r' || c == '\U{B}' || c == '\U{C}'
    || ('\U{1C}' <= c <= '\U{1F}') || c == '\U{85}' || c == '\U{A0}'
  }

  lemma EmptyIfNoMember(s: set<int>)
    requires forall x :: x !in s
    ensures s == {}
  {
    assert forall x :: x in s <==> x in {};
  }

  /** A non-empty set of integers has a member. */
  lemma MemberOf(s: set<int>) returns (x: int)
    requires s != {}
    ensures x in s
  {
    if forall y: int :: y !in s {
      EmptyIfNoMember(s);
      assert false;
    }
    x :| x in s;
  }

  predicate IsUpper(c: char) {
    'A' <= c <= 'Z'
  }

  /** An ASCII capital becomes the small letter 32 code points above it. */
  function LowerChar(c: char): (r: char)
    ensures !IsUpper(r)
    ensures !IsUpper(c) ==> r == c
    ensures IsUpper(c) ==> r as int == c as int + 32 && 'a' <= r <= 'z'
  {
    if IsUpper(c) then (c as int + 32) as char else c
  }

  /** `str.lower()` on the ASCII letters. */
  function Lower(s: string): (r: string)
    ensures |r| == |s|
    ensures forall i :: 0 <= i < |r| ==> !IsUpper(r[i])
    ensures forall i :: 0 <= i < |s| && !IsUpper(s[i]) ==> r[i] == s[i]
    ensures forall i :: 0 <= i < |s| ==> r[i] == LowerChar(s[i])
  {
    seq(|s|, i requires 0 <= i < |s| => LowerChar(s[i]))
  }

  /** Lowering a string without upper-case letters changes nothing. */
  lemma LowerUnchanged(s: string)
    requires forall i :: 0 <= i < |s| ==> !IsUpper(s[i])
    ensures Lower(s) == s
  {
    var r := Lower(s);
    assert |r| == |s|;
    assert forall i :: 0 <= i < |s| ==> r[i] == s[i];
  }

  /** Lowering twice is lowering once. */
  lemma LowerIdempotent(s: string)
    ensures Lower(Lower(s)) == Lower(s)
  {
    var r := Lower(s);
    assert forall i :: 0 <= i < |r| ==> Lower(r)[i] == r[i];
  }

  /** Lowering commutes with dropping the leading separators, since no separator is a letter. */
  lemma {:induction false} LowerDropSpaces(s: string)
    ensures DropSpaces(Lower(s)) == Lower(DropSpaces(s))
  {
    if s != [] {
      var l := Lower(s);
      assert l[0] == LowerChar(s[0]);
      if IsSpace(s[0]) {
        assert l[0] == s[0];
        assert l[1..] == Lower(s[1..]);
        calc {
          DropSpaces(l);
          DropSpaces(l[1..]);
          { LowerDropSpaces(s[1..]); }
          Lower(DropSpaces(s[1..]));
        }
      } else {
        assert !IsSpace(l[0]);
      }
    }
  }

  /** Lowering commutes with taking the first word. */
  lemma {:induction false} LowerTakeWord(s: string)
    ensures TakeWord(Lower(s)) == Lower(TakeWord(s))
  {
    if s != [] && !IsSpace(s[0]) {
      LowerCons(s[0], s[1..]);
      assert [s[0]] + s[1..] == s;
      LowerTakeWord(s[1..]);
      LowerCons(s[0], TakeWord(s[1..]));
    }
  }

  /** Lowering works character by character. */
  lemma LowerCons(c: char, w: string)
    ensures Lower([c] + w) == [LowerChar(c)] + Lower(w)
    ensures !IsSpace(c) ==> !IsSpace(LowerChar(c))
  {
    assert forall i :: 0 <= i < |w| ==> ([c] + w)[i + 1] == w[i];
  }

  /** `s.lower().split()[0]` is `s.split()[0].lower()`. */
  lemma LowerFirstToken(s: string)
    ensures FirstToken(Lower(s)).None? <==> FirstToken(s).None?
    ensures FirstToken(s).Some? ==> FirstToken(Lower(s)) == Some(Lower(FirstToken(s).value))
  {
    LowerDropSpaces(s);
    LowerTakeWord(DropSpaces(s));
  }

  /** The suffix of `s` left after the leading separators. */
  function DropSpaces(s: string): (r: string)
    ensures |r| <= |s| && r == s[|s| - |r|..]
    ensures forall i :: 0 <= i < |s| - |r| ==> IsSpace(s[i])
    ensures r == [] || !IsSpace(r[0])
  {
    if s != [] && IsSpace(s[0]) then DropSpaces(s[1..]) else s
  }

  /** The longest prefix of `s` that holds no separator. */
  function TakeWord(s: string): (r: string)
    ensures r <= s
    ensures forall i :: 0 <= i < |r| ==> !IsSpace(r[i])
    ensures |r| == |s| || IsSpace(s[|r|])
  {
    if s == [] || IsSpace(s[0]) then [] else [s[0]] + TakeWord(s[1..])
  }

  /** `w` is a word of `s` starting at `k`, preceded only by separators. */
  predicate FirstWordAt(s: string, k: int, w: string) {
    && 0 <= k <= |s| - |w|
    && s[k..k + |w|] == w
    && (forall i :: 0 <= i < k ==> IsSpace(s[i]))
    && (k + |w| == |s| || IsSpace(s[k + |w|]))
  }

  /** `s.split()[0]`: the first whitespace-delimited token, or None when
      `s.split()` is empty and indexing it would raise. */
  function FirstToken(s: string): (r: Option<string>)
    ensures r.None? <==> forall i :: 0 <= i < |s| ==> IsSpace(s[i])
    ensures r.Some? ==> r.value != [] && forall i :: 0 <= i < |r.value| ==> !IsSpace(r.value[i])
    ensures r.Some? ==> exists k :: FirstWordAt(s, k, r.value)
  {
    var rest := DropSpaces(s);
    if rest == [] then None
    else
      FirstWordAfterSpaces(s);
      Some(TakeWord(rest))
  }

  /** The word after the leading separators sits where those separators end. */
  lemma FirstWordAfterSpaces(s: string)
    requires DropSpaces(s) != []
    ensures FirstWordAt(s, |s| - |DropSpaces(s)|, TakeWord(DropSpaces(s)))
  {
    WordAfter(s, DropSpaces(s), TakeWord(DropSpaces(s)));
  }

  /** A word that starts a suffix of `s` and is followed by a separator or the end. */
  lemma WordAfter(s: string, rest: string, w: string)
    requires |rest| <= |s| && rest == s[|s| - |rest|..]
    requires forall i :: 0 <= i < |s| - |rest| ==> IsSpace(s[i])
    requires w <= rest && (|w| == |rest| || IsSpace(rest[|w|]))
    ensures FirstWordAt(s, |s| - |rest|, w)
  {
    var k := |s| - |rest|;
    assert s[k..k + |w|] == rest[..|w|];
    assert |w| < |rest| ==> s[k + |w|] == rest[|w|];
  }

  /** A string with no separator and a non-separator first character is its own first token. */
  lemma {:induction false} FirstTokenOfWord(w: string, tail: string)
    requires w != []
    requires forall i :: 0 <= i < |w| ==> !IsSpace(w[i])
    requires tail == [] || IsSpace(tail[0])
    ensures FirstToken(w + tail) == Some(w)
  {
    var s := w + tail;
    assert DropSpaces(s) == s;
    TakeWordOfWord(w, tail);
  }

  lemma {:induction false} TakeWordOfWord(w: string, tail: string)
    requires forall i :: 0 <= i < |w| ==> !IsSpace(w[i])
    requires tail == [] || IsSpace(tail[0])
    ensures TakeWord(w + tail) == w
  {
    if w == [] {
      assert w + tail == tail;
    } else {
      assert (w + tail)[1..] == w[1..] + tail;
      TakeWordOfWord(w[1..], tail);
    }
  }
}
