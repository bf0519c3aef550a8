/**
 * The navigation bar: whether the settings page is showing, and the avatar
 * initials drawn from the current user's name or, failing that, email.
 */
module Navbar {
  import opened Wrappers
  import Seqs
  import Text
  import Auth

  /** `url.startsWith('/customer/settings')`, evaluated on start-up and after every navigation. */
  function IsOnSettingsPage(url: string): (r: bool)
    ensures r <==> |url| >= 18 && url[..18] == "/customer/settings"
  {
    Text.StartsWith(url, "/customer/settings")
  }

  /** The test is a prefix test: any URL extending the settings path counts, whatever follows. */
  lemma SettingsPrefixCounts(rest: string)
    ensures IsOnSettingsPage("/customer/settings" + rest)
  {
    assert ("/customer/settings" + rest)[..18] == "/customer/settings";
  }

  /**
   * `s.split(/\s+/)`, scanning left to right: `piece` is the piece being
   * read and `afterSpace` says the scan is inside a run of white space. A run
   * ends the current piece once; a leading or trailing run leaves an empty
   * piece, and "" splits into [""].
   */
  function SplitFrom(s: string, piece: string, afterSpace: bool): (r: seq<string>)
    ensures |r| >= 1
    ensures (!afterSpace ==> |piece| > 0) && ((|s| == 0 && !afterSpace) || (|s| > 0 && !Text.IsSpace(s[|s| - 1]))) ==>
      forall k :: 0 <= k < |r| ==> |r[k]| > 0
  {
    if |s| == 0 then [piece]
    else if Text.IsSpace(s[0]) then
      if afterSpace then SplitFrom(s[1..], piece, true) else [piece] + SplitFrom(s[1..], "", true)
    else SplitFrom(s[1..], piece + [s[0]], false)
  }

  /** `s.split(/\s+/)`; a string without white space at either end splits into non-empty pieces. */
  function SplitWs(s: string): (r: seq<string>)
    ensures |r| >= 1
    ensures |s| > 0 && !Text.IsSpace(s[0]) && !Text.IsSpace(s[|s| - 1]) ==> forall k :: 0 <= k < |r| ==> |r[k]| > 0
  {
    assert |s| > 1 ==> s[1..][|s| - 2] == s[|s| - 1];
    SplitFrom(s, "", false)
  }

  /** `parts.map(p => p[0]?.toUpperCase() ?? '').join('')`. */
  function JoinInitials(parts: seq<string>): string {
    if |parts| == 0 then "" else Text.FirstUpper(parts[0]) + JoinInitials(parts[1..])
  }

  /** The initials the name yields: the first characters of the first two pieces of the trimmed name. */
  function NameInitials(name: string): string {
    JoinInitials(Seqs.Take(SplitWs(Text.Trim(name)), 2))
  }

  /**
   * `avatarInitials`: the name's initials, or else the upper-cased first
   * character of the email, or "" without a user.
   */
  function AvatarInitials(user: Option<Auth.User>): (r: string)
    ensures |r| <= 2
    ensures user.None? ==> r == ""
    ensures user.Some? && NameInitials(user.value.name.GetOr("")) == "" ==> r == Text.FirstUpper(user.value.email)
    ensures NameInitials(if user.Some? then user.value.name.GetOr("") else "") != "" ==>
      r == NameInitials(if user.Some? then user.value.name.GetOr("") else "")
  {
    var name := if user.Some? then user.value.name.GetOr("") else "";
    var initials := NameInitials(name);
    InitialsAtMostTwo(name);
    if initials != "" then initials
    else if user.Some? then Text.FirstUpper(user.value.email)
    else ""
  }

  /**
   * The reference definition: the characters that start a word of `s`, that
   * is, non-space characters at the front or right after white space.
   * `afterSpace` says whether the character before `s` was white space.
   */
  function WordStartsFrom(s: string, afterSpace: bool): string {
    if |s| == 0 then ""
    else (if afterSpace && !Text.IsSpace(s[0]) then [s[0]] else "") + WordStartsFrom(s[1..], Text.IsSpace(s[0]))
  }

  function WordStarts(s: string): string {
    WordStartsFrom(s, true)
  }

  lemma {:induction false} WordStartsAppend(a: string, b: string, afterSpace: bool)
    ensures WordStartsFrom(a + b, afterSpace)
      == WordStartsFrom(a, afterSpace) + WordStartsFrom(b, if |a| == 0 then afterSpace else Text.IsSpace(a[|a| - 1]))
    decreases |a|
  {
    if |a| > 0 {
      assert (a + b)[1..] == a[1..] + b;
      WordStartsAppend(a[1..], b, Text.IsSpace(a[0]));
    } else {
      assert a + b == b;
    }
  }

  /** White space contributes no word starts and leaves the next character at the start of a word. */
  lemma {:induction false} WordStartsOfSpaces(ws: string, afterSpace: bool)
    requires forall k :: 0 <= k < |ws| ==> Text.IsSpace(ws[k])
    ensures WordStartsFrom(ws, afterSpace) == ""
    decreases |ws|
  {
    if |ws| > 0 {
      WordStartsOfSpaces(ws[1..], true);
    }
  }

  /** A run without white space starts a word exactly when it follows white space and is not empty. */
  lemma {:induction false} WordStartsOfWord(w: string, afterSpace: bool)
    requires forall k :: 0 <= k < |w| ==> !Text.IsSpace(w[k])
    ensures WordStartsFrom(w, afterSpace) == if afterSpace && |w| > 0 then [w[0]] else ""
    decreases |w|
  {
    if |w| > 0 {
      WordStartsOfWord(w[1..], false);
    }
  }

  /** The first characters of the pieces, skipping empty ones. */
  function Heads(parts: seq<string>): string {
    if |parts| == 0 then "" else (if |parts[0]| > 0 then [parts[0][0]] else "") + Heads(parts[1..])
  }

  /**
   * The pieces of the scan start exactly at the word starts: the piece being
   * read contributes its first character, the rest of the text its word starts.
   */
  lemma {:induction false} HeadsOfSplitFrom(s: string, piece: string, afterSpace: bool)
    requires afterSpace ==> piece == ""
    ensures Heads(SplitFrom(s, piece, afterSpace))
      == (if |piece| > 0 then [piece[0]] else "") + WordStartsFrom(s, afterSpace || piece == "")
    decreases |s|
  {
    if |s| > 0 {
      if Text.IsSpace(s[0]) {
        HeadsOfSplitFrom(s[1..], "", true);
        if !afterSpace {
          var rest := SplitFrom(s[1..], "", true);
          assert ([piece] + rest)[1..] == rest;
        }
      } else {
        HeadsOfSplitFrom(s[1..], piece + [s[0]], false);
        assert (piece + [s[0]])[0] == if |piece| > 0 then piece[0] else s[0];
      }
    }
  }

  /** The pieces of a split start exactly at the word starts. */
  lemma HeadsOfSplit(s: string)
    ensures Heads(SplitWs(s)) == WordStarts(s)
  {
    HeadsOfSplitFrom(s, "", false);
  }

  /** Joining upper-cased first characters is upper-casing the heads. */
  lemma {:induction false} JoinIsUpperHeads(parts: seq<string>)
    ensures JoinInitials(parts) == Seqs.Map(Text.ToUpperChar, Heads(parts))
    decreases |parts|
  {
    if |parts| > 0 {
      JoinIsUpperHeads(parts[1..]);
      var h := if |parts[0]| > 0 then [parts[0][0]] else "";
      Seqs.MapAppend(Text.ToUpperChar, h, Heads(parts[1..]));
    }
  }

  /** Each non-empty piece has exactly one head. */
  lemma {:induction false} HeadsOfNonEmpty(parts: seq<string>)
    requires forall k :: 0 <= k < |parts| ==> |parts[k]| > 0
    ensures |Heads(parts)| == |parts|
    decreases |parts|
  {
    if |parts| > 0 {
      HeadsOfNonEmpty(parts[1..]);
    }
  }

  /** Over non-empty pieces, the heads of the first two pieces are the first two heads. */
  lemma HeadsFirstTwo(parts: seq<string>)
    requires forall k :: 0 <= k < |parts| ==> |parts[k]| > 0
    ensures Heads(Seqs.Take(parts, 2)) == Seqs.Take(Heads(parts), 2)
  {
    HeadsOfNonEmpty(parts);
    if |parts| > 2 {
      var h0, h1 := parts[0][0], parts[1][0];
      assert Seqs.Take(parts, 2) == [parts[0], parts[1]];
      assert Heads([parts[0], parts[1]]) == [h0, h1] by {
        assert [parts[0], parts[1]][1..] == [parts[1]];
        assert [parts[1]][1..] == [];
        assert Heads([parts[1]]) == [h1];
      }
      assert Heads(parts) == [h0] + ([h1] + Heads(parts[2..])) by {
        assert parts[1..][1..] == parts[2..];
      }
    }
  }

  lemma InitialsAtMostTwo(name: string)
    ensures |NameInitials(name)| <= 2
  {
    var t := Text.Trim(name);
    HeadsOfSplit(t);
    JoinIsUpperHeads(Seqs.Take(SplitWs(t), 2));
    HeadsLength(Seqs.Take(SplitWs(t), 2));
  }

  lemma {:induction false} HeadsLength(parts: seq<string>)
    ensures |Heads(parts)| <= |parts|
    decreases |parts|
  {
    if |parts| > 0 {
      HeadsLength(parts[1..]);
    }
  }

  /** Trimming does not move the word starts. */
  lemma TrimKeepsWordStarts(s: string)
    ensures WordStarts(Text.Trim(s)) == WordStarts(s)
  {
    var lead := Text.LeadingSpaces(s);
    var t := Text.Trim(s);
    var lws, trail := s[..lead], s[lead + |t|..];
    assert s == lws + (t + trail);
    WordStartsAppend(lws, t + trail, true);
    WordStartsOfSpaces(lws, true);
    WordStartsAppend(t, trail, true);
    WordStartsOfSpaces(trail, if |t| == 0 then true else Text.IsSpace(t[|t| - 1]));
  }

  /**
   * The name's initials are the upper-cased first two word starts of the
   * name, the reference definition, whatever white space surrounds the words.
   */
  lemma NameInitialsAreWordStarts(name: string)
    ensures NameInitials(name) == Seqs.Map(Text.ToUpperChar, Seqs.Take(WordStarts(name), 2))
  {
    var t := Text.Trim(name);
    var parts := SplitWs(t);
    HeadsOfSplit(t);
    TrimKeepsWordStarts(name);
    JoinIsUpperHeads(Seqs.Take(parts, 2));
    if |t| == 0 {
      assert parts == [""];
      assert Seqs.Take(parts, 2) == [""];
    } else {
      HeadsFirstTwo(parts);
    }
  }

  /** Replacing one run of white space by another does not change the word starts. */
  lemma SpacingKeepsWordStarts(a: string, ws1: string, ws2: string, b: string)
    requires |ws1| > 0 && |ws2| > 0
    requires forall k :: 0 <= k < |ws1| ==> Text.IsSpace(ws1[k])
    requires forall k :: 0 <= k < |ws2| ==> Text.IsSpace(ws2[k])
    ensures WordStarts(a + ws1 + b) == WordStarts(a + ws2 + b)
  {
    var q := if |a| == 0 then true else Text.IsSpace(a[|a| - 1]);
    WordStartsAppend(a + ws1, b, true);
    WordStartsAppend(a + ws2, b, true);
    WordStartsAppend(a, ws1, true);
    WordStartsAppend(a, ws2, true);
    WordStartsOfSpaces(ws1, q);
    WordStartsOfSpaces(ws2, q);
    assert (a + ws1)[|a + ws1| - 1] == ws1[|ws1| - 1];
    assert (a + ws2)[|a + ws2| - 1] == ws2[|ws2| - 1];
  }
}
