/** The chat list row: the unread badge, and the avatar that falls back to
    the initials of the chat's title when there is no picture. */
module Chats {
  import opened Text

  /** `s.split(separator: " ")`: the maximal runs of non-space characters, in
      order; empty pieces are dropped. */
  function Words(s: string): (r: seq<string>)
    ensures forall i :: 0 <= i < |r| ==> r[i] != [] && ' ' !in r[i]
    decreases |s|
  {
    if s == [] then []
    else if s[0] == ' ' then Words(s[1..])
    else
      var n := IndexOf(s, ' ');
      assert forall k :: 0 <= k < n ==> s[..n][k] != ' ';
      [s[..n]] + Words(s[n..])
  }

  /** Spaces in front of the words add no word. */
  lemma WordsSkipLeadingSpace(s: string)
    ensures Words(" " + s) == Words(s)
  {
    assert (" " + s)[1..] == s;
  }

  /** A title of spaces only has no words. */
  lemma {:induction false} WordsOfSpaces(s: string)
    requires forall i :: 0 <= i < |s| ==> s[i] == ' '
    ensures Words(s) == []
    decreases |s|
  {
    if s != [] {
      WordsOfSpaces(s[1..]);
    }
  }

  /** A word followed by a space splits off as the first word. */
  lemma WordThenSpace(a: string, rest: string)
    requires a != [] && ' ' !in a
    ensures Words(a + " " + rest) == [a] + Words(rest)
  {
    var s := a + " " + rest;
    assert forall k :: 0 <= k < |a| ==> s[k] == a[k];
    assert s[|a|] == ' ';
    assert IndexOf(s, ' ') == |a|;
    assert s[..|a|] == a;
    assert s[|a|..] == " " + rest;
    WordsSkipLeadingSpace(rest);
  }

  /** A single word with nothing after it is one piece. */
  lemma WordAlone(a: string)
    requires a != [] && ' ' !in a
    ensures Words(a) == [a]
  {
    assert IndexOf(a, ' ') == |a|;
    assert a[..|a|] == a;
  }

  /** Two words separated by one space are two pieces. */
  lemma TwoWords(a: string, b: string)
    requires a != [] && ' ' !in a && b != [] && ' ' !in b
    ensures Words(a + " " + b) == [a, b]
  {
    WordThenSpace(a, b);
    WordAlone(b);
  }

  /** The characters of s other than spaces, in order. */
  function NonSpaces(s: string): string {
    if s == [] then [] else (if s[0] == ' ' then [] else [s[0]]) + NonSpaces(s[1..])
  }

  /** All pieces one after another. */
  function Joined(ws: seq<string>): string {
    if ws == [] then [] else ws[0] + Joined(ws[1..])
  }

  lemma {:induction false} NonSpacesAppend(x: string, y: string)
    ensures NonSpaces(x + y) == NonSpaces(x) + NonSpaces(y)
    decreases |x|
  {
    if x != [] {
      assert (x + y)[1..] == x[1..] + y;
      NonSpacesAppend(x[1..], y);
    } else {
      assert x + y == y;
    }
  }

  lemma {:induction false} NonSpacesOfWord(x: string)
    requires ' ' !in x
    ensures NonSpaces(x) == x
    decreases |x|
  {
    if x != [] {
      assert ' ' !in x[1..] by {
        assert forall k :: 0 <= k < |x[1..]| ==> x[1..][k] == x[1 + k];
      }
      NonSpacesOfWord(x[1..]);
    }
  }

  /** No character other than a space is lost or added by the split: the
      pieces, joined back, are the title with its spaces removed. */
  lemma {:induction false} WordsKeepEveryLetter(s: string)
    ensures Joined(Words(s)) == NonSpaces(s)
    decreases |s|
  {
    if s != [] {
      if s[0] == ' ' {
        WordsKeepEveryLetter(s[1..]);
      } else {
        var n := IndexOf(s, ' ');
        assert s == s[..n] + s[n..];
        assert ' ' !in s[..n] by {
          assert forall k :: 0 <= k < n ==> s[..n][k] != ' ';
        }
        WordsKeepEveryLetter(s[n..]);
        NonSpacesAppend(s[..n], s[n..]);
        NonSpacesOfWord(s[..n]);
        assert Words(s) == [s[..n]] + Words(s[n..]);
        assert ([s[..n]] + Words(s[n..]))[1..] == Words(s[n..]);
      }
    }
  }

  /** `initials(from:)`: the upper-cased first letter of each of the first two
      words, in order. */
  function Initials(title: string): (r: string)
    ensures |r| == Min(2, |Words(title)|)
    ensures forall i :: 0 <= i < |r| ==> r[i] == UpperChar(Words(title)[i][0])
  {
    var firsts := Prefix(Words(title), 2);
    seq(|firsts|, i requires 0 <= i < |firsts| => UpperChar(firsts[i][0]))
  }

  /** Only the first two words count: whatever follows them adds nothing. */
  lemma InitialsOfTwoWords(a: string, b: string, rest: string)
    requires a != [] && ' ' !in a && b != [] && ' ' !in b
    ensures Initials(a + " " + b + " " + rest) == [UpperChar(a[0]), UpperChar(b[0])]
  {
    WordThenSpace(a, b + " " + rest);
    WordThenSpace(b, rest);
    assert a + " " + b + " " + rest == a + " " + (b + " " + rest);
  }

  /** A one-word title gives one letter, a two-word title two. */
  lemma InitialsOfShortTitles(a: string, b: string)
    requires a != [] && ' ' !in a && b != [] && ' ' !in b
    ensures Initials(a) == [UpperChar(a[0])]
    ensures Initials(a + " " + b) == [UpperChar(a[0]), UpperChar(b[0])]
  {
    WordAlone(a);
    TwoWords(a, b);
  }

  /** Leading spaces change nothing, and a blank title has no initials. */
  lemma InitialsSpaces(s: string)
    ensures Initials(" " + s) == Initials(s)
    ensures (forall i :: 0 <= i < |s| ==> s[i] == ' ') ==> Initials(s) == []
  {
    WordsSkipLeadingSpace(s);
    if forall i :: 0 <= i < |s| ==> s[i] == ' ' {
      WordsOfSpaces(s);
    }
  }

  /** What the `Avatar` view draws. */
  datatype AvatarContent = Picture(url: string) | Letters(initials: string)

  /** The picture when the chat has an avatar URL, the title's initials
      otherwise. */
  function Avatar(url: Option<string>, title: string): (r: AvatarContent)
    ensures r.Letters? <==> url.None?
    ensures r.Picture? ==> r.url == url.value
    ensures r.Letters? ==> r.initials == Initials(title)
  {
    match url
    case Some(u) => Picture(u)
    case None => Letters(Initials(title))
  }

  /** The unread badge of a chat row: the count, shown only when positive. */
  function UnreadBadge(unreadCount: int): (r: Option<string>)
    ensures r.Some? <==> unreadCount > 0
  {
    if unreadCount > 0 then Some(IntToString(unreadCount)) else None
  }

  /** The badge's text reads back as the unread count. */
  lemma UnreadBadgeShowsCount(unreadCount: int)
    requires unreadCount > 0
    ensures (forall i :: 0 <= i < |UnreadBadge(unreadCount).value| ==> '0' <= UnreadBadge(unreadCount).value[i] <= '9')
    ensures DigitsValue(UnreadBadge(unreadCount).value) == unreadCount
  {
    NatToStringRoundTrip(unreadCount);
  }
}
