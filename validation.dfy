/**
 * The server's validation utilities: the field schemas (ObjectId, Spotify
 * id, password, username, duration, pagination and search), the update
 * schema of a playlist request, and the two sanitisers of free text.
 *
 * A schema is modelled by the list of issues zod reports, check by check in
 * the order they are chained (a failed check does not stop the later ones),
 * next to a declarative predicate of what is accepted; each issue list is
 * empty exactly when the predicate holds.
 */
module Validation {
  import opened Wrappers
  import opened Schema
  import Text
  import Collection

  // ----- identifiers ------------------------------------------------------------

  /** `^[0-9a-fA-F]{24}$`. */
  predicate IsObjectId(s: string) {
    |s| == 24 && forall i :: 0 <= i < |s| ==> Text.IsHexDigit(s[i])
  }

  /** Exactly 22 ASCII letters and digits. */
  predicate IsSpotifyId(s: string) {
    |s| == 22 && forall i :: 0 <= i < |s| ==> Text.IsAsciiAlnum(s[i])
  }

  predicate AllAlnum(s: string) {
    forall i :: 0 <= i < |s| ==> Text.IsAsciiAlnum(s[i])
  }

  const InvalidObjectId := "Invalid ObjectId format"
  const InvalidSpotifyId := "Invalid Spotify ID"
  const SpotifyIdChars := "Spotify ID contains invalid characters"

  /** `objectIdSchema`: one regular-expression check. */
  function ObjectIdIssues(s: string): (issues: seq<string>)
    ensures issues == [] <==> IsObjectId(s)
    ensures issues != [] ==> issues == [InvalidObjectId]
  {
    if |s| == 24 && forall i :: 0 <= i < |s| ==> Text.IsHexDigit(s[i]) then [] else [InvalidObjectId]
  }

  /** `spotifyIdSchema`: `min(22)`, `max(22)`, then `^[a-zA-Z0-9]+$`. */
  function SpotifyIdIssues(s: string): (issues: seq<string>)
    ensures issues == [] <==> IsSpotifyId(s)
    ensures |issues| <= 2
    ensures forall m :: m in issues ==> m == InvalidSpotifyId || m == SpotifyIdChars
    ensures AllAlnum(s) && s != [] ==> forall m :: m in issues ==> m == InvalidSpotifyId
  {
    (if |s| < 22 then [InvalidSpotifyId] else [])
    + (if |s| > 22 then [InvalidSpotifyId] else [])
    + (if s != [] && AllAlnum(s) then [] else [SpotifyIdChars])
  }

  // ----- passwords ------------------------------------------------------------------

  /** The characters `[@$!%*?&]`. */
  predicate IsPasswordSpecial(c: char) {
    c in "@$!%*?&"
  }

  /**
   * `^(?=.*[class])`: a character of the class occurs with no line
   * terminator before it, because `.` does not match one.
   */
  predicate OnFirstLine(s: string, inClass: char -> bool) {
    exists i :: 0 <= i < |s| && inClass(s[i]) && forall j :: 0 <= j < i ==> !Text.IsLineTerminator(s[j])
  }

  /**
   * The lookahead as the regular-expression engine runs it: left to right,
   * trying the class at each position and stopping after a line terminator.
   */
  function ScanFirstLine(s: string, inClass: char -> bool): (found: bool)
  {
    if s == [] then false
    else inClass(s[0]) || (!Text.IsLineTerminator(s[0]) && ScanFirstLine(s[1..], inClass))
  }

  lemma {:induction false} ScanFirstLineCorrect(s: string, inClass: char -> bool)
    ensures ScanFirstLine(s, inClass) <==> OnFirstLine(s, inClass)
  {
    if s == [] {
    } else if inClass(s[0]) {
      assert OnFirstLine(s, inClass);
    } else if Text.IsLineTerminator(s[0]) {
    } else {
      ScanFirstLineCorrect(s[1..], inClass);
      if OnFirstLine(s[1..], inClass) {
        var i :| 0 <= i < |s[1..]| && inClass(s[1..][i]) && forall j :: 0 <= j < i ==> !Text.IsLineTerminator(s[1..][j]);
        assert inClass(s[i + 1]) && forall j :: 0 <= j < i + 1 ==> !Text.IsLineTerminator(s[j]);
      }
      if OnFirstLine(s, inClass) {
        var i :| 0 <= i < |s| && inClass(s[i]) && forall j :: 0 <= j < i ==> !Text.IsLineTerminator(s[j]);
        assert i != 0;
        assert inClass(s[1..][i - 1]) && forall j :: 0 <= j < i - 1 ==> !Text.IsLineTerminator(s[1..][j]);
      }
    }
  }

  /** What `passwordSchema` accepts. */
  predicate StrongPassword(s: string) {
    && 8 <= |s| <= 128
    && OnFirstLine(s, Text.IsAsciiLower)
    && OnFirstLine(s, Text.IsAsciiUpper)
    && OnFirstLine(s, Text.IsDigit)
    && OnFirstLine(s, IsPasswordSpecial)
  }

  const PasswordTooShort := "Password must be at least 8 characters long"
  const PasswordTooLong := "Password too long"
  const PasswordNeedsLower := "Password must contain at least one lowercase letter"
  const PasswordNeedsUpper := "Password must contain at least one uppercase letter"
  const PasswordNeedsDigit := "Password must contain at least one number"
  const PasswordNeedsSpecial := "Password must contain at least one special character"

  /** `passwordSchema`: the length checks, then the four lookaheads. */
  function PasswordIssues(s: string): (issues: seq<string>)
    ensures issues == [] <==> StrongPassword(s)
    ensures |issues| <= 5
    ensures PasswordTooShort in issues <==> |s| < 8
    ensures PasswordNeedsDigit in issues <==> !OnFirstLine(s, Text.IsDigit)
  {
    ScanFirstLineCorrect(s, Text.IsAsciiLower);
    ScanFirstLineCorrect(s, Text.IsAsciiUpper);
    ScanFirstLineCorrect(s, Text.IsDigit);
    ScanFirstLineCorrect(s, IsPasswordSpecial);
    (if |s| < 8 then [PasswordTooShort] else [])
    + (if |s| > 128 then [PasswordTooLong] else [])
    + (if ScanFirstLine(s, Text.IsAsciiLower) then [] else [PasswordNeedsLower])
    + (if ScanFirstLine(s, Text.IsAsciiUpper) then [] else [PasswordNeedsUpper])
    + (if ScanFirstLine(s, Text.IsDigit) then [] else [PasswordNeedsDigit])
    + (if ScanFirstLine(s, IsPasswordSpecial) then [] else [PasswordNeedsSpecial])
  }

  /** A digit after a line break does not count: the lookaheads never look past the first line. */
  lemma DigitAfterLineBreakRejected(s: string)
    requires forall i :: 0 <= i < |s| ==> !Text.IsDigit(s[i])
    ensures !StrongPassword(s + "\n1")
  {
    var t := s + "\n1";
    if OnFirstLine(t, Text.IsDigit) {
      var i :| 0 <= i < |t| && Text.IsDigit(t[i]) && forall j :: 0 <= j < i ==> !Text.IsLineTerminator(t[j]);
      assert i == |s| + 1;
      assert Text.IsLineTerminator(t[|s|]);
    }
  }

  // ----- usernames ---------------------------------------------------------------

  predicate IsUsernameChar(c: char) {
    Text.IsAsciiAlnum(c) || c == '_' || c == '-'
  }

  /** What `usernameSchema` accepts: 3 to 30 characters of `[a-zA-Z0-9_-]`. */
  predicate ValidUsername(s: string) {
    3 <= |s| <= 30 && forall i :: 0 <= i < |s| ==> IsUsernameChar(s[i])
  }

  /** `usernameSchema`: the checks, then `toLowerCase().trim()` on an accepted name. */
  function ParseUsername(s: string): (r: Option<string>)
    ensures r.Some? <==> ValidUsername(s)
    ensures r.Some? ==> |r.value| == |s| && r.value == Text.ToLower(s)
    ensures r.Some? ==> forall i :: 0 <= i < |r.value| ==> !Text.IsAsciiUpper(r.value[i])
  {
    if 3 <= |s| <= 30 && s != [] && forall i :: 0 <= i < |s| ==> IsUsernameChar(s[i]) then
      var lower := Text.ToLower(s);
      assert IsUsernameChar(s[0]) && IsUsernameChar(s[|s| - 1]);
      assert !Text.IsWhitespace(lower[0]) && !Text.IsWhitespace(lower[|lower| - 1]);
      Text.TrimmedIsFixpoint(lower);
      Some(Text.Trim(lower))
    else None
  }

  /** A parsed username parses to itself. */
  lemma ParseUsernameIdempotent(s: string)
    requires ParseUsername(s).Some?
    ensures ParseUsername(ParseUsername(s).value) == ParseUsername(s)
  {
    var u := ParseUsername(s).value;
    assert forall i :: 0 <= i < |u| ==> IsUsernameChar(u[i]) by {
      forall i | 0 <= i < |u| ensures IsUsernameChar(u[i]) {
        assert IsUsernameChar(s[i]);
      }
    }
    assert Text.ToLower(u) == u;
  }

  /** Two names that differ only in the case of their letters parse to the same username. */
  lemma ParseUsernameIgnoresCase(s: string, t: string)
    requires ValidUsername(s) && ValidUsername(t)
    requires Text.ToLower(s) == Text.ToLower(t)
    ensures ParseUsername(s) == ParseUsername(t)
  {
  }

  // ----- numbers -------------------------------------------------------------------

  const DurationTooShort := "Duration must be at least 1 second"
  const DurationTooLong := "Duration cannot exceed 1 hour"

  /** `durationSchema`: between one second and one hour, in milliseconds. */
  function DurationIssues(ms: int): (issues: seq<string>)
    ensures issues == [] <==> 1000 <= ms <= 3600000
    ensures ms < 1000 ==> issues == [DurationTooShort]
    ensures ms > 3600000 ==> issues == [DurationTooLong]
  {
    (if ms < 1000 then [DurationTooShort] else []) + (if ms > 3600000 then [DurationTooLong] else [])
  }

  datatype PageRequest = PageRequest(page: int, limit: int)

  /** `paginationSchema`: `page` at least 1 and `limit` from 1 to 100, with defaults 1 and 20. */
  function ParsePagination(page: Option<int>, limit: Option<int>): (r: Option<PageRequest>)
    ensures r.Some? <==> (page.None? || page.value >= 1) && (limit.None? || 1 <= limit.value <= 100)
    ensures r.Some? ==> r.value.page >= 1 && 1 <= r.value.limit <= 100
    ensures r.Some? ==> r.value.page == (if page.Some? then page.value else 1)
    ensures r.Some? ==> r.value.limit == (if limit.Some? then limit.value else 20)
  {
    var p := if page.Some? then page.value else 1;
    var l := if limit.Some? then limit.value else 20;
    if p >= 1 && 1 <= l <= 100 then Some(PageRequest(p, l)) else None
  }

  datatype SearchRequest = SearchRequest(q: string, page: int, limit: int)

  /** `searchSchema`: a query of 1 to 200 characters, `page` at least 1, `limit` from 1 to 50. */
  function ParseSearch(q: Option<string>, page: Option<int>, limit: Option<int>): (r: Option<SearchRequest>)
    ensures r.Some? <==>
      q.Some? && 1 <= |q.value| <= 200 && (page.None? || page.value >= 1) && (limit.None? || 1 <= limit.value <= 50)
    ensures r.Some? ==> r.value.q == q.value && r.value.page >= 1 && 1 <= r.value.limit <= 50
  {
    if q.None? || !(1 <= |q.value| <= 200) then None
    else
      var p := if page.Some? then page.value else 1;
      var l := if limit.Some? then limit.value else 20;
      if p >= 1 && 1 <= l <= 50 then Some(SearchRequest(q.value, p, l)) else None
  }

  /** A search's paging is always valid paging: the search bound is the tighter one. */
  lemma SearchPagingIsPagination(q: Option<string>, page: Option<int>, limit: Option<int>)
    requires ParseSearch(q, page, limit).Some?
    ensures ParsePagination(page, limit) ==
      Some(PageRequest(ParseSearch(q, page, limit).value.page, ParseSearch(q, page, limit).value.limit))
  {
  }

  // ----- playlist update requests ----------------------------------------------------

  /**
   * `apiValidationSchemas.updatePlaylist`: the id parameter is an ObjectId,
   * the name (1 to 100 characters, then trimmed) and the description (at
   * most 500) are optional, and at least one of them must be given.
   */
  function ParseUpdatePlaylistRequest(id: string, b: Body): (r: Option<UpdatePlaylist>)
    ensures r.Some? <==>
      && IsObjectId(id)
      && OptionalString(b, "name").Some? && OptionalString(b, "description").Some?
      && ValidUpdatePlaylist(UpdatePlaylist(OptionalString(b, "name").value, OptionalString(b, "description").value))
      && ("name" in b || "description" in b)
    ensures r.Some? ==> r.value.description == OptionalString(b, "description").value
    ensures r.Some? ==> (r.value.name.Some? <==> "name" in b)
    ensures r.Some? && r.value.name.Some? ==> r.value.name.value == Text.Trim(b["name"].str)
  {
    var name := OptionalString(b, "name");
    var description := OptionalString(b, "description");
    if !IsObjectId(id) || name.None? || description.None? then None
    else if !ValidUpdatePlaylist(UpdatePlaylist(name.value, description.value)) then None
    else if name.value.None? && description.value.None? then None
    else
      var trimmed := if name.value.Some? then Some(Text.Trim(name.value.value)) else None;
      Some(UpdatePlaylist(trimmed, description.value))
  }

  /** An empty update is refused here, though the shared update schema admits it. */
  lemma EmptyUpdateRequestRejected(id: string)
    ensures ParseUpdatePlaylistRequest(id, map[]).None?
    ensures ParseUpdatePlaylist(map[]).Some?
  {
  }

  /** Every update request accepted here passes the shared update schema too. */
  lemma UpdateRequestPassesSharedSchema(id: string, b: Body)
    requires ParseUpdatePlaylistRequest(id, b).Some?
    ensures ParseUpdatePlaylist(b).Some?
    ensures ParseUpdatePlaylist(b).value.description == ParseUpdatePlaylistRequest(id, b).value.description
  {
  }

  // ----- sanitisers --------------------------------------------------------------------

  /** A character `/[<>]/` does not match. */
  predicate NotAngle(c: char) {
    c != '<' && c != '>'
  }

  /** `replace(/[<>]/g, '')`: the input with every `<` and `>` deleted, the rest in order. */
  function DropAngles(s: string): (r: string)
    ensures r == Collection.Filter(s, NotAngle)
    ensures |r| <= |s|
    ensures forall c :: c in r <==> c in s && c != '<' && c != '>'
  {
    if s == [] then []
    else (if s[0] == '<' || s[0] == '>' then [] else [s[0]]) + DropAngles(s[1..])
  }

  /** `javascript:` occurs at the start of `s`, ignoring the case of ASCII letters. */
  predicate JavascriptAt(s: string) {
    |s| >= 11 && Text.ToLower(s[..11]) == "javascript:"
  }

  /** `replace(/javascript:/gi, '')`: one left-to-right pass over non-overlapping occurrences. */
  function DropJavascript(s: string): (r: string)
    ensures |r| <= |s|
    ensures forall c :: c in r ==> c in s
    ensures !JavascriptAt(s) && s != [] ==> r != [] && r[0] == s[0]
  {
    if s == [] then []
    else if JavascriptAt(s) then DropJavascript(s[11..])
    else [s[0]] + DropJavascript(s[1..])
  }

  /** The pass only deletes: what is left is the input with some characters removed, the rest in order. */
  lemma {:induction false} DropJavascriptDeletes(s: string)
    ensures Collection.Subsequence(DropJavascript(s), s)
  {
    if s == [] {
      Collection.SubsequenceNil<char>();
    } else if JavascriptAt(s) {
      DropJavascriptDeletes(s[11..]);
      Collection.SubsequenceSkip(DropJavascript(s[11..]), s, 11);
    } else {
      DropJavascriptDeletes(s[1..]);
      Collection.SubsequenceCons(s[0], DropJavascript(s[1..]), s[1..]);
      assert [s[0]] + s[1..] == s;
    }
  }

  /** `on\w+=` matches the whole of `t`, ignoring case. */
  predicate IsHandler(t: string) {
    && |t| >= 4
    && Text.LowerChar(t[0]) == 'o' && Text.LowerChar(t[1]) == 'n'
    && t[|t| - 1] == '='
    && forall i :: 2 <= i < |t| - 1 ==> Text.IsWordChar(t[i])
  }

  /** The number of word characters `s` starts with. */
  function WordRun(s: string): (n: nat)
    ensures n <= |s|
    ensures forall i :: 0 <= i < n ==> Text.IsWordChar(s[i])
    ensures n < |s| ==> !Text.IsWordChar(s[n])
  {
    if s != [] && Text.IsWordChar(s[0]) then 1 + WordRun(s[1..]) else 0
  }

  /** The length of the `on\w+=` match at the start of `s`, or 0 when there is none. */
  function HandlerAt(s: string): (n: nat)
    ensures n <= |s|
    ensures n > 0 ==> IsHandler(s[..n])
    ensures n == 0 ==> forall k :: 0 <= k <= |s| ==> !IsHandler(s[..k])
  {
    if |s| >= 2 && Text.LowerChar(s[0]) == 'o' && Text.LowerChar(s[1]) == 'n' then
      var w := WordRun(s[2..]);
      if w >= 1 && 2 + w < |s| && s[2 + w] == '=' then
        var m := s[..3 + w];
        assert IsHandler(m) by {
          forall i | 2 <= i < 2 + w ensures Text.IsWordChar(m[i]) {
            assert m[i] == s[2..][i - 2];
          }
        }
        3 + w
      else
        assert forall k :: 0 <= k <= |s| ==> !IsHandler(s[..k]) by {
          forall k | 0 <= k <= |s| ensures !IsHandler(s[..k]) {
            if IsHandler(s[..k]) {
              assert false;
            }
          }
        }
        0
    else 0
  }

  /** `replace(/on\w+=/gi, '')`: one left-to-right pass over non-overlapping matches. */
  function DropHandlers(s: string): (r: string)
    ensures |r| <= |s|
    ensures forall c :: c in r ==> c in s
    ensures HandlerAt(s) == 0 && s != [] ==> r != [] && r[0] == s[0]
  {
    if s == [] then []
    else
      var n := HandlerAt(s);
      if n > 0 then DropHandlers(s[n..]) else [s[0]] + DropHandlers(s[1..])
  }

  /** The pass only deletes: what is left is the input with some characters removed, the rest in order. */
  lemma {:induction false} DropHandlersDeletes(s: string)
    ensures Collection.Subsequence(DropHandlers(s), s)
  {
    if s == [] {
      Collection.SubsequenceNil<char>();
    } else if HandlerAt(s) > 0 {
      var n := HandlerAt(s);
      DropHandlersDeletes(s[n..]);
      Collection.SubsequenceSkip(DropHandlers(s[n..]), s, n);
    } else {
      DropHandlersDeletes(s[1..]);
      Collection.SubsequenceCons(s[0], DropHandlers(s[1..]), s[1..]);
      assert [s[0]] + s[1..] == s;
    }
  }

  /**
   * `sanitizeInput`: trim, then the three deletions in order. Every pass only
   * deletes, so no `<` or `>` survives; a deletion may join the pieces of
   * a later pattern, which the single pass then leaves in place.
   */
  function SanitizeInput(input: string): (r: string)
    ensures |r| <= |input|
    ensures forall c :: c in r ==> c in input && c != '<' && c != '>'
  {
    var trimmed := Text.Trim(input);
    Text.TrimIsInfix(input);
    assert forall c :: c in trimmed ==> c in input by {
      forall c | c in trimmed ensures c in input {
        var i :| 0 <= i < |trimmed| && trimmed[i] == c;
        assert input[|input| - |Text.TrimStart(input)| + i] == c;
      }
    }
    DropHandlers(DropJavascript(DropAngles(trimmed)))
  }

  /** The sanitiser trims, then only deletes: its output is the trimmed input with characters removed, the rest in order. */
  lemma SanitizeInputDeletes(input: string)
    ensures Collection.Subsequence(SanitizeInput(input), Text.Trim(input))
  {
    var trimmed := Text.Trim(input);
    var a := DropAngles(trimmed);
    var b := DropJavascript(a);
    Collection.FilterDeletes(trimmed, NotAngle);
    DropJavascriptDeletes(a);
    DropHandlersDeletes(b);
    Collection.SubsequenceTransitive(b, a, trimmed);
    Collection.SubsequenceTransitive(DropHandlers(b), b, trimmed);
  }

  /** `[\w\s-_.]`: inside the class, `-` stands for itself. */
  predicate IsSearchChar(c: char) {
    Text.IsWordChar(c) || Text.IsWhitespace(c) || c == '-' || c == '_' || c == '.'
  }

  /** `replace(/[^\w\s-_.]/g, '')`: the input with every other character deleted, the rest in order. */
  function KeepSearchChars(s: string): (r: string)
    ensures r == Collection.Filter(s, IsSearchChar)
    ensures |r| <= |s|
    ensures forall c :: c in r <==> c in s && IsSearchChar(c)
  {
    if s == [] then []
    else (if IsSearchChar(s[0]) then [s[0]] else []) + KeepSearchChars(s[1..])
  }

  /** `sanitizeSearchQuery`: the input sanitiser, the character filter, then the first 200 characters. */
  function SanitizeSearchQuery(query: string): (r: string)
    ensures |r| <= 200 && |r| <= |query|
    ensures forall i :: 0 <= i < |r| ==> IsSearchChar(r[i]) && r[i] in query
  {
    var kept := KeepSearchChars(SanitizeInput(query));
    var r := Text.Take(kept, 200);
    assert forall i :: 0 <= i < |r| ==> r[i] in kept;
    r
  }

  /** The search sanitiser also trims, then only deletes, the cut to 200 characters included. */
  lemma SanitizeSearchQueryDeletes(query: string)
    ensures Collection.Subsequence(SanitizeSearchQuery(query), Text.Trim(query))
  {
    var clean := SanitizeInput(query);
    var kept := KeepSearchChars(clean);
    SanitizeInputDeletes(query);
    Collection.FilterDeletes(clean, IsSearchChar);
    Collection.SubsequenceTransitive(kept, clean, Text.Trim(query));
    var r := SanitizeSearchQuery(query);
    if |kept| <= 200 {
      assert r == kept;
    } else {
      assert r == kept[..200];
      Collection.SubsequencePrefix(kept, 200);
      Collection.SubsequenceTransitive(r, kept, Text.Trim(query));
    }
  }

  /** Letters, digits and spaces: text every sanitiser pass leaves alone. */
  predicate PlainText(s: string) {
    forall i :: 0 <= i < |s| ==> Text.IsAsciiAlnum(s[i]) || s[i] == ' '
  }

  /** Trimmed plain text passes both sanitisers whole, up to its 200th character. */
  lemma SanitizeKeepsPlainText(query: string)
    requires Text.Trimmed(query) && PlainText(query)
    ensures SanitizeInput(query) == query
    ensures SanitizeSearchQuery(query) == Text.Take(query, 200)
  {
    Text.TrimmedIsFixpoint(query);
    DropAnglesKeepsPlainText(query);
    DropJavascriptKeepsPlainText(query);
    DropHandlersKeepsPlainText(query);
    KeepSearchCharsKeepsPlainText(query);
  }

  lemma {:induction false} DropAnglesKeepsPlainText(s: string)
    requires PlainText(s)
    ensures DropAngles(s) == s
  {
    if s != [] {
      DropAnglesKeepsPlainText(s[1..]);
    }
  }

  lemma {:induction false} DropJavascriptKeepsPlainText(s: string)
    requires PlainText(s)
    ensures DropJavascript(s) == s
  {
    if s != [] {
      DropJavascriptKeepsPlainText(s[1..]);
      if |s| >= 11 {
        assert Text.ToLower(s[..11])[10] == Text.LowerChar(s[10]);
      }
    }
  }

  lemma {:induction false} DropHandlersKeepsPlainText(s: string)
    requires PlainText(s)
    ensures DropHandlers(s) == s
  {
    if s != [] {
      DropHandlersKeepsPlainText(s[1..]);
      assert HandlerAt(s) == 0 by {
        if HandlerAt(s) > 0 {
          assert false;
        }
      }
      assert DropHandlers(s) == [s[0]] + DropHandlers(s[1..]);
    }
  }

  lemma {:induction false} KeepSearchCharsKeepsPlainText(s: string)
    requires PlainText(s)
    ensures KeepSearchChars(s) == s
  {
    if s != [] {
      KeepSearchCharsKeepsPlainText(s[1..]);
    }
  }
}
