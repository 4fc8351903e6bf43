/**
 * Normalisation of a note's title and content. Text is ASCII here, where NFKC is the identity, case
 * folding acts on letters only, and a string is its own UTF-8 encoding.
 */
module NoteText {
  import opened Domain

  const MAX_NOTE_BYTES: nat := 32_768
  const MAX_TITLE_LENGTH: nat := 80

  datatype NoteError =
    | TitleLengthInvalid
    | TitlePathSyntaxRejected
    | TitleEmptyAfterSanitization
    | TitleReserved
    | ContentNullByteRejected
    | ContentEmpty
    | ContentTooLarge
    | PathOutsideManagedWorkspace
    | NoteAlreadyExists
    | NoteCreateFailed
    | PostWriteVerificationFailed
    | RollbackTargetMissing
    | RollbackHashMismatch
    | RollbackDeleteVerificationFailed

  datatype PreparedNote = PreparedNote(
    title: string,
    filename: string,
    content: string,
    contentSha256: string)

  /* Character classes. */

  predicate IsSpace(c: char) {
    c == ' ' || 9 <= c as int <= 13 || 28 <= c as int <= 31
  }

  predicate IsSpaceOrDot(c: char) {
    c == ' ' || c == '.'
  }

  predicate IsAlnum(c: char) {
    'a' <= c <= 'z' || 'A' <= c <= 'Z' || '0' <= c <= '9'
  }

  predicate IsKept(c: char) {
    IsAlnum(c) || c == ' ' || c == '-' || c == '_' || c == '(' || c == ')'
  }

  function Upper(s: string): string {
    seq(|s|, i requires 0 <= i < |s| =>
      if 'a' <= s[i] <= 'z' then (s[i] as int - 32) as char else s[i])
  }

  /* The string operations the normaliser is built from. */

  function StripLeft(s: string, drop: char -> bool): string {
    if s != "" && drop(s[0]) then StripLeft(s[1..], drop) else s
  }

  function StripRight(s: string, drop: char -> bool): string {
    if s != "" && drop(s[|s| - 1]) then StripRight(s[..|s| - 1], drop) else s
  }

  function Strip(s: string, drop: char -> bool): string {
    StripRight(StripLeft(s, drop), drop)
  }

  function KeepOnly(s: string, keep: char -> bool): string {
    if s == "" then ""
    else (if keep(s[0]) then [s[0]] else "") + KeepOnly(s[1..], keep)
  }

  lemma {:induction s} StripLeftIsSuffix(s: string, drop: char -> bool)
    ensures |StripLeft(s, drop)| <= |s|
    ensures StripLeft(s, drop) == s[|s| - |StripLeft(s, drop)|..]
    ensures StripLeft(s, drop) == "" || !drop(StripLeft(s, drop)[0])
  {
  }

  lemma {:induction s} StripRightIsPrefix(s: string, drop: char -> bool)
    ensures StripRight(s, drop) <= s
    ensures StripRight(s, drop) == "" || !drop(StripRight(s, drop)[|StripRight(s, drop)| - 1])
  {
  }

  /** Runs of white space become one space each. */
  function CollapseSpaces(s: string): (r: string)
    ensures |r| <= |s|
    decreases |s|
  {
    if s == "" then ""
    else if IsSpace(s[0]) then
      StripLeftIsSuffix(s[1..], IsSpace);
      " " + CollapseSpaces(StripLeft(s[1..], IsSpace))
    else [s[0]] + CollapseSpaces(s[1..])
  }

  /** `replace("\r\n", "\n")`. */
  function ReplaceCrLf(s: string): string {
    if s == "" then ""
    else if 2 <= |s| && s[0] == '\r' && s[1] == '\n' then "\n" + ReplaceCrLf(s[2..])
    else [s[0]] + ReplaceCrLf(s[1..])
  }

  /** `replace("\r", "\n")`. */
  function ReplaceCr(s: string): string {
    if s == "" then ""
    else [if s[0] == '\r' then '\n' else s[0]] + ReplaceCr(s[1..])
  }

  /** `title.casefold().endswith(".md")`. */
  predicate EndsWithMd(s: string) {
    var n := |s|;
    3 <= n && s[n - 3] == '.' && s[n - 2] in {'m', 'M'} && s[n - 1] in {'d', 'D'}
  }

  predicate HasDoubleDot(s: string) {
    exists i :: 0 < i < |s| && s[i - 1] == '.' && s[i] == '.'
  }

  predicate IsReserved(u: string) {
    || u in {"CON", "PRN", "AUX", "NUL"}
    || (|u| == 4 && u[..3] in {"COM", "LPT"} && '1' <= u[3] <= '9')
  }

  function TrimTitle(raw: string): string {
    var title := Strip(raw, IsSpace);
    if EndsWithMd(title) then StripRight(title[..|title| - 3], IsSpace) else title
  }

  function CleanTitle(title: string): string {
    Strip(CollapseSpaces(KeepOnly(title, IsKept)), IsSpaceOrDot)
  }

  function NormalizeTitle(raw: string): Result<string, NoteError> {
    var title := TrimTitle(raw);
    if title == "" || MAX_TITLE_LENGTH < |title| then Failure(TitleLengthInvalid)
    else if HasDoubleDot(title) || '/' in title || '\\' in title || ':' in title then
      Failure(TitlePathSyntaxRejected)
    else
      var cleaned := CleanTitle(title);
      if cleaned == "" then Failure(TitleEmptyAfterSanitization)
      else if IsReserved(Upper(cleaned)) then Failure(TitleReserved)
      else Success(cleaned)
  }

  function NormalizeContent(content: string): string {
    Strip(ReplaceCr(ReplaceCrLf(content)), IsSpace)
  }

  function PrepareNote(title: string, content: string): Result<PreparedNote, NoteError> {
    match NormalizeTitle(title)
    case Failure(error) => Failure(error)
    case Success(normalized) =>
      if '\0' in content then Failure(ContentNullByteRejected)
      else
        var body := NormalizeContent(content);
        if body == "" then Failure(ContentEmpty)
        else
          var text := if body[|body| - 1] == '\n' then body else body + "\n";
          if MAX_NOTE_BYTES < |text| then Failure(ContentTooLarge)
          else Success(PreparedNote(normalized, normalized + ".md", text, Sha256(text)))
  }

  /* What a normal title is. */

  ghost predicate OnlyKept(s: string) {
    forall i :: 0 <= i < |s| ==> IsKept(s[i])
  }

  ghost predicate SingleSpaced(s: string) {
    forall i :: 0 < i < |s| ==> !(s[i - 1] == ' ' && s[i] == ' ')
  }

  ghost predicate NormalTitle(s: string) {
    && 0 < |s| <= 80
    && OnlyKept(s)
    && SingleSpaced(s)
    && s[0] != ' '
    && s[|s| - 1] != ' '
    && !IsReserved(Upper(s))
  }

  lemma StripLeavesEndsAlone(s: string, drop: char -> bool)
    requires s != "" ==> !drop(s[0]) && !drop(s[|s| - 1])
    ensures Strip(s, drop) == s
  {
  }

  lemma StripIsSlice(s: string, drop: char -> bool) returns (from: nat)
    ensures from + |Strip(s, drop)| <= |s|
    ensures Strip(s, drop) == s[from..from + |Strip(s, drop)|]
    ensures Strip(s, drop) != "" ==> !drop(Strip(s, drop)[0]) && !drop(Strip(s, drop)[|Strip(s, drop)| - 1])
  {
    var left := StripLeft(s, drop);
    StripLeftIsSuffix(s, drop);
    StripRightIsPrefix(left, drop);
    from := |s| - |left|;
  }

  lemma {:induction s} KeepOnlyKeeps(s: string)
    ensures |KeepOnly(s, IsKept)| <= |s|
    ensures OnlyKept(KeepOnly(s, IsKept))
  {
  }

  lemma {:induction false} KeepOnlyFixed(s: string)
    requires OnlyKept(s)
    ensures KeepOnly(s, IsKept) == s
  {
    if s != "" {
      assert OnlyKept(s[1..]);
      KeepOnlyFixed(s[1..]);
    }
  }

  lemma {:induction false} CollapseMakesSingleSpaced(s: string)
    requires OnlyKept(s)
    ensures OnlyKept(CollapseSpaces(s)) && SingleSpaced(CollapseSpaces(s))
    ensures s != "" ==> CollapseSpaces(s) != ""
    ensures s != "" && s[0] != ' ' ==> CollapseSpaces(s)[0] != ' '
    decreases |s|
  {
    if s != "" {
      if IsSpace(s[0]) {
        StripLeftIsSuffix(s[1..], IsSpace);
        CollapseMakesSingleSpaced(StripLeft(s[1..], IsSpace));
      } else {
        assert OnlyKept(s[1..]);
        CollapseMakesSingleSpaced(s[1..]);
      }
    }
  }

  lemma {:induction false} CollapseFixed(s: string)
    requires OnlyKept(s) && SingleSpaced(s)
    ensures CollapseSpaces(s) == s
    decreases |s|
  {
    if s != "" {
      assert OnlyKept(s[1..]);
      assert SingleSpaced(s[1..]) by {
        forall i | 0 < i < |s[1..]|
          ensures !(s[1..][i - 1] == ' ' && s[1..][i] == ' ')
        {
          assert s[1..][i] == s[i + 1];
          assert s[1..][i - 1] == s[i];
        }
      }
      if IsSpace(s[0]) && 1 < |s| {
        assert !(s[1 - 1] == ' ' && s[1] == ' ');
        assert IsKept(s[1]);
        assert StripLeft(s[1..], IsSpace) == s[1..];
      }
      CollapseFixed(s[1..]);
    }
  }

  /** Whatever the normaliser returns is a normal title. */
  lemma NormalizedTitleIsNormal(raw: string)
    requires NormalizeTitle(raw).Success?
    ensures NormalTitle(NormalizeTitle(raw).value)
  {
    var title := TrimTitle(raw);
    var kept := KeepOnly(title, IsKept);
    KeepOnlyKeeps(title);
    CollapseMakesSingleSpaced(kept);
    var collapsed := CollapseSpaces(kept);
    var from := StripIsSlice(collapsed, IsSpaceOrDot);
    var t := CleanTitle(title);
    assert t == collapsed[from..from + |t|];
    forall i | 0 < i < |t|
      ensures !(t[i - 1] == ' ' && t[i] == ' ')
    {
      assert t[i] == collapsed[from + i];
      assert t[i - 1] == collapsed[from + i - 1];
    }
  }

  /** A normal title is what it normalises to. */
  lemma NormalTitleIsFixed(t: string)
    requires NormalTitle(t)
    ensures NormalizeTitle(t) == Success(t)
  {
    assert IsKept(t[0]) && IsKept(t[|t| - 1]);
    StripLeavesEndsAlone(t, IsSpace);
    assert !EndsWithMd(t) by {
      if 3 <= |t| {
        assert IsKept(t[|t| - 3]);
      }
    }
    assert !HasDoubleDot(t) && '/' !in t && '\\' !in t && ':' !in t;
    KeepOnlyFixed(t);
    CollapseFixed(t);
    StripLeavesEndsAlone(t, IsSpaceOrDot);
  }

  /** A title normalises to itself exactly when it is normal. */
  lemma TitleFixedPoints(t: string)
    ensures NormalizeTitle(t) == Success(t) <==> NormalTitle(t)
  {
    if NormalTitle(t) {
      NormalTitleIsFixed(t);
    }
    if NormalizeTitle(t) == Success(t) {
      NormalizedTitleIsNormal(t);
    }
  }

  /* Newlines and content. */

  /** A one-pass normaliser: each CR LF, CR or LF becomes one LF. */
  function UnifyNewlines(s: string): string {
    if s == "" then ""
    else if s[0] == '\r' then
      "\n" + UnifyNewlines(if 2 <= |s| && s[1] == '\n' then s[2..] else s[1..])
    else [s[0]] + UnifyNewlines(s[1..])
  }

  /** The two passes of the source are the one-pass normaliser. */
  lemma {:induction false} TwoPassesAreOne(s: string)
    ensures ReplaceCr(ReplaceCrLf(s)) == UnifyNewlines(s)
    decreases |s|
  {
    if s != "" {
      if 2 <= |s| && s[0] == '\r' && s[1] == '\n' {
        TwoPassesAreOne(s[2..]);
        assert ReplaceCrLf(s)[1..] == ReplaceCrLf(s[2..]);
      } else {
        TwoPassesAreOne(s[1..]);
        assert ReplaceCrLf(s)[1..] == ReplaceCrLf(s[1..]);
      }
    }
  }

  lemma {:induction false} UnifiedHasNoCr(s: string)
    ensures '\r' !in UnifyNewlines(s)
    ensures '\0' !in s ==> '\0' !in UnifyNewlines(s)
    decreases |s|
  {
    if s != "" {
      UnifiedHasNoCr(if s[0] == '\r' && 2 <= |s| && s[1] == '\n' then s[2..] else s[1..]);
    }
  }

  lemma {:induction false} UnifyFixed(s: string)
    requires '\r' !in s
    ensures UnifyNewlines(s) == s
  {
    if s != "" {
      UnifyFixed(s[1..]);
    }
  }

  lemma StripBeforeNewline(body: string)
    requires body != "" && !IsSpace(body[0]) && !IsSpace(body[|body| - 1])
    ensures Strip(body + "\n", IsSpace) == body
  {
    var s := body + "\n";
    assert StripLeft(s, IsSpace) == s;
    assert s[..|s| - 1] == body;
    assert StripRight(body, IsSpace) == body;
  }

  /** The shape of every note content the normaliser lets through. */
  ghost predicate NormalContent(text: string) {
    && 2 <= |text| <= 32_768
    && '\r' !in text
    && '\0' !in text
    && text[|text| - 1] == '\n'
    && !IsSpace(text[0])
    && !IsSpace(text[|text| - 2])
  }

  lemma NormalizedContentEnds(content: string)
    requires '\0' !in content
    ensures var body := NormalizeContent(content);
            && '\r' !in body && '\0' !in body
            && (body != "" ==> !IsSpace(body[0]) && !IsSpace(body[|body| - 1]))
  {
    TwoPassesAreOne(content);
    UnifiedHasNoCr(content);
    var unified := UnifyNewlines(content);
    var from := StripIsSlice(unified, IsSpace);
    assert NormalizeContent(content) == unified[from..from + |NormalizeContent(content)|];
  }

  lemma PreparedNoteIsNormal(title: string, content: string)
    requires PrepareNote(title, content).Success?
    ensures var note := PrepareNote(title, content).value;
            && NormalTitle(note.title)
            && note.filename == note.title + ".md"
            && NormalContent(note.content)
            && note.contentSha256 == Sha256(note.content)
  {
    NormalizedTitleIsNormal(title);
    NormalizedContentEnds(content);
    var body := NormalizeContent(content);
    var text := PrepareNote(title, content).value.content;
    assert text == body + "\n";
    assert text[..|text| - 1] == body;
    assert text[0] == body[0] && text[|text| - 2] == body[|body| - 1];
  }

  lemma NormalContentIsFixed(text: string)
    requires NormalContent(text)
    ensures NormalizeContent(text) + "\n" == text
    ensures NormalizeContent(text) != "" && !IsSpace(NormalizeContent(text)[|NormalizeContent(text)| - 1])
  {
    TwoPassesAreOne(text);
    UnifyFixed(text);
    var body := text[..|text| - 1];
    assert body + "\n" == text;
    StripBeforeNewline(body);
  }

  /** Preparing a prepared note again changes nothing. */
  lemma PrepareIsIdempotent(title: string, content: string)
    requires PrepareNote(title, content).Success?
    ensures var note := PrepareNote(title, content).value;
            PrepareNote(note.title, note.content) == Success(note)
  {
    var note := PrepareNote(title, content).value;
    PreparedNoteIsNormal(title, content);
    NormalTitleIsFixed(note.title);
    NormalContentIsFixed(note.content);
  }

  /** Exactly the normal titles and contents are prepared without change. */
  lemma PreparedFixedPoints(title: string, content: string)
    ensures (&& PrepareNote(title, content).Success?
             && PrepareNote(title, content).value.title == title
             && PrepareNote(title, content).value.content == content)
            <==> NormalTitle(title) && NormalContent(content)
  {
    if NormalTitle(title) && NormalContent(content) {
      NormalTitleIsFixed(title);
      NormalContentIsFixed(content);
    }
    if PrepareNote(title, content).Success? {
      PreparedNoteIsNormal(title, content);
    }
  }

  /* What normalising does to any text. */

  ghost predicate AllSpace(s: string) {
    forall i :: 0 <= i < |s| ==> IsSpace(s[i])
  }

  ghost predicate NoSpaceAtEnds(s: string) {
    s != "" ==> !IsSpace(s[0]) && !IsSpace(s[|s| - 1])
  }

  lemma {:induction false} StripLeftDrops(left: string, rest: string)
    requires AllSpace(left) && (rest != "" ==> !IsSpace(rest[0]))
    ensures StripLeft(left + rest, IsSpace) == rest
  {
    if left == "" {
      assert left + rest == rest;
    } else {
      assert (left + rest)[1..] == left[1..] + rest;
      StripLeftDrops(left[1..], rest);
    }
  }

  lemma {:induction false} StripRightDrops(rest: string, right: string)
    requires AllSpace(right) && (rest != "" ==> !IsSpace(rest[|rest| - 1]))
    ensures StripRight(rest + right, IsSpace) == rest
  {
    if right == "" {
      assert rest + right == rest;
    } else {
      var s := rest + right;
      assert s[..|s| - 1] == rest + right[..|right| - 1];
      StripRightDrops(rest, right[..|right| - 1]);
    }
  }

  /** Stripping takes the white space around a text away, and no more. */
  lemma StripIsMiddle(left: string, middle: string, right: string)
    requires AllSpace(left) && AllSpace(right) && NoSpaceAtEnds(middle)
    ensures Strip(left + middle + right, IsSpace) == middle
  {
    if middle == "" {
      assert left + middle + right == (left + right) + "";
      StripLeftDrops(left + right, "");
    } else {
      assert left + middle + right == left + (middle + right);
      StripLeftDrops(left, middle + right);
      StripRightDrops(middle, right);
    }
  }

  /** An ending ".md", in any case, with the white space before it is taken off a title once; other endings stay. */
  lemma TrimIsMiddle(left: string, middle: string, gap: string, ending: string, right: string)
    requires AllSpace(left) && AllSpace(gap) && AllSpace(right) && NoSpaceAtEnds(middle)
    requires if ending == "" then gap == "" && !EndsWithMd(middle)
             else ending in {".md", ".Md", ".mD", ".MD"} && (middle == "" ==> gap == "")
    ensures TrimTitle(left + middle + gap + ending + right) == middle
  {
    hide Strip, StripRight, EndsWithMd, AllSpace, NoSpaceAtEnds, IsSpace;
    var whole := middle + gap + ending;
    assert left + middle + gap + ending + right == left + whole + right;
    if ending == "" {
      assert whole == middle;
      StripIsMiddle(left, middle, right);
    } else {
      EndingIsMd(middle, gap, ending);
      StripIsMiddle(left, whole, right);
      StripRightOf(middle, gap);
    }
  }

  lemma StripRightOf(middle: string, gap: string)
    requires AllSpace(gap) && NoSpaceAtEnds(middle)
    ensures StripRight(middle + gap, IsSpace) == middle
  {
    hide StripRight, IsSpace;
    StripRightDrops(middle, gap);
  }

  lemma EndingIsMd(middle: string, gap: string, ending: string)
    requires NoSpaceAtEnds(middle) && (middle == "" ==> gap == "")
    requires ending in {".md", ".Md", ".mD", ".MD"}
    ensures var whole := middle + gap + ending;
            && NoSpaceAtEnds(whole) && EndsWithMd(whole)
            && whole[..|whole| - 3] == middle + gap
  {
    var whole := middle + gap + ending;
    assert |ending| == 3 && ending[0] == '.' && ending[1] in {'m', 'M'} && ending[2] in {'d', 'D'};
    assert whole[|whole| - 3] == ending[0] && whole[|whole| - 2] == ending[1] && whole[|whole| - 1] == ending[2];
    assert whole[0] == if middle == "" then ending[0] else middle[0];
  }

  lemma NormalHasNoSpaceAtEnds(t: string)
    requires NormalTitle(t)
    ensures NoSpaceAtEnds(t) && !EndsWithMd(t)
  {
    assert IsKept(t[0]) && IsKept(t[|t| - 1]);
    if 3 <= |t| {
      assert IsKept(t[|t| - 3]);
    }
  }

  /** A normal title comes out of any padding, with or without the ending ".md". */
  lemma PaddedTitleIsNormalized(left: string, t: string, gap: string, ending: string, right: string)
    requires AllSpace(left) && AllSpace(gap) && AllSpace(right) && NormalTitle(t)
    requires if ending == "" then gap == "" else ending in {".md", ".Md", ".mD", ".MD"}
    ensures NormalizeTitle(left + t + gap + ending + right) == Success(t)
  {
    NormalHasNoSpaceAtEnds(t);
    TrimIsMiddle(left, t, gap, ending, right);
    NormalTitleIsFixed(t);
    assert "" + t + "" + "" + "" == t;
    TrimIsMiddle("", t, "", "", "");
  }

  /** A title with a slash, a backslash or a colon in it is refused, wherever that stands. */
  lemma PathSyntaxIsRefused(raw: string)
    requires '/' in raw || '\\' in raw || ':' in raw
    ensures NormalizeTitle(raw).Failure?
  {
    hide Strip, StripRight, EndsWithMd, CleanTitle, HasDoubleDot, IsReserved;
    var c := if '/' in raw then '/' else if '\\' in raw then '\\' else ':';
    StripKeepsOthers(raw, c);
    var title := Strip(raw, IsSpace);
    if EndsWithMd(title) {
      EndingHasNoPath(title, c);
      StripRightKeepsOthers(title[..|title| - 3], c);
    }
  }

  lemma EndingHasNoPath(title: string, c: char)
    requires EndsWithMd(title) && c in title && (c == '/' || c == '\\' || c == ':')
    ensures c in title[..|title| - 3]
  {
    var n := |title| - 3;
    var i :| 0 <= i < |title| && title[i] == c;
    assert i != n && i != n + 1 && i != n + 2;
    assert title[..n][i] == c;
  }

  lemma {:induction false} StripRightKeepsOthers(s: string, c: char)
    requires c in s && !IsSpace(c)
    ensures c in StripRight(s, IsSpace)
  {
    if IsSpace(s[|s| - 1]) {
      assert s == s[..|s| - 1] + [s[|s| - 1]];
      StripRightKeepsOthers(s[..|s| - 1], c);
    }
  }

  lemma {:induction false} StripLeftKeepsOthers(s: string, c: char)
    requires c in s && !IsSpace(c)
    ensures c in StripLeft(s, IsSpace)
  {
    if IsSpace(s[0]) {
      StripLeftKeepsOthers(s[1..], c);
    }
  }

  lemma StripKeepsOthers(s: string, c: char)
    requires c in s && !IsSpace(c)
    ensures c in Strip(s, IsSpace)
  {
    StripLeftKeepsOthers(s, c);
    StripRightKeepsOthers(StripLeft(s, IsSpace), c);
  }

  /** Dropping characters goes character by character. */
  lemma {:induction false} KeepOnlyAdds(a: string, b: string)
    ensures KeepOnly(a + b, IsKept) == KeepOnly(a, IsKept) + KeepOnly(b, IsKept)
    ensures |a| == 1 ==> KeepOnly(a, IsKept) == if IsKept(a[0]) then a else ""
  {
    hide IsKept;
    if a == "" {
      assert a + b == b;
    } else {
      var head := if IsKept(a[0]) then [a[0]] else "";
      assert (a + b)[1..] == a[1..] + b;
      KeepOnlyAdds(a[1..], b);
      Regroups(head, KeepOnly(a[1..], IsKept), KeepOnly(b, IsKept));
      assert KeepOnly(a + b, IsKept) == head + KeepOnly(a[1..] + b, IsKept);
      if |a| == 1 {
        assert a == [a[0]] && a[1..] == "";
      }
    }
  }

  lemma Regroups(a: string, b: string, c: string)
    ensures a + (b + c) == a + b + c
  {
  }

  /** The words between spaces. */
  function Words(s: string): seq<string>
    decreases |s|
  {
    if s == "" then []
    else if s[0] == ' ' then Words(s[1..])
    else
      var n := WordLength(s);
      [s[..n]] + Words(s[n..])
  }

  /** How long the text is up to its first space. */
  function WordLength(s: string): (n: nat)
    ensures n <= |s| && (s != "" && s[0] != ' ' ==> 0 < n)
  {
    if s == "" || s[0] == ' ' then 0 else 1 + WordLength(s[1..])
  }

  lemma {:induction false} WordLengthIs(word: string, rest: string)
    requires ' ' !in word && (rest != "" ==> rest[0] == ' ')
    ensures WordLength(word + rest) == |word|
  {
    if word == "" {
      assert word + rest == rest;
    } else {
      assert (word + rest)[1..] == word[1..] + rest;
      WordLengthIs(word[1..], rest);
    }
  }

  /** A text starts with a word without spaces, and what follows is empty or starts with a space. */
  lemma {:induction false} WordSplits(s: string)
    ensures ' ' !in s[..WordLength(s)]
    ensures s[WordLength(s)..] != "" ==> s[WordLength(s)..][0] == ' '
  {
    if s != "" && s[0] != ' ' {
      WordSplits(s[1..]);
      var n := WordLength(s);
      assert s[..n] == [s[0]] + s[1..][..n - 1];
      assert s[n..] == s[1..][n - 1..];
    }
  }

  /** Collapsing runs of spaces keeps the words. */
  lemma {:induction false} CollapseKeepsWords(s: string)
    requires OnlyKept(s)
    ensures Words(CollapseSpaces(s)) == Words(s)
    decreases |s|
  {
    if s != "" {
      if s[0] == ' ' {
        assert OnlyKept(s[1..]);
        StripLeftIsSuffix(s[1..], IsSpace);
        CollapseKeepsWords(StripLeft(s[1..], IsSpace));
        LeadingSpacesHaveNoWords(s[1..]);
      } else {
        WordSplits(s);
        var n := WordLength(s);
        var word, rest := s[..n], s[n..];
        assert s == word + rest;
        CollapseSkipsWord(word, rest);
        CollapseKeepsWords(rest);
        CollapseMakesSingleSpaced(rest);
        assert rest != "" ==> CollapseSpaces(rest)[0] == ' ';
        WordLengthIs(word, CollapseSpaces(rest));
        assert (word + CollapseSpaces(rest))[..n] == word;
        assert (word + CollapseSpaces(rest))[n..] == CollapseSpaces(rest);
      }
    }
  }

  lemma {:induction false} CollapseSkipsWord(word: string, rest: string)
    requires ' ' !in word && OnlyKept(word)
    ensures CollapseSpaces(word + rest) == word + CollapseSpaces(rest)
  {
    if word == "" {
      assert word + rest == rest;
    } else {
      assert (word + rest)[1..] == word[1..] + rest;
      assert IsKept(word[0]) && !IsSpace(word[0]);
      CollapseSkipsWord(word[1..], rest);
    }
  }

  lemma {:induction false} LeadingSpacesHaveNoWords(s: string)
    requires OnlyKept(s)
    ensures Words(StripLeft(s, IsSpace)) == Words(s)
  {
    if s != "" && IsSpace(s[0]) {
      assert IsKept(s[0]);
      LeadingSpacesHaveNoWords(s[1..]);
    }
  }

  lemma {:induction false} TrailingSpaceHasNoWord(s: string)
    ensures Words(s + " ") == Words(s)
    decreases |s|
  {
    var more := s + " ";
    if s == "" {
      assert more == " " && more[1..] == "";
    } else if s[0] == ' ' {
      assert more[1..] == s[1..] + " ";
      TrailingSpaceHasNoWord(s[1..]);
    } else {
      WordSplits(s);
      var n := WordLength(s);
      var word, rest := s[..n], s[n..];
      assert s == word + rest && more == word + (rest + " ");
      WordLengthIs(word, rest + " ");
      assert more[..n] == word && more[n..] == rest + " ";
      TrailingSpaceHasNoWord(rest);
    }
  }

  lemma {:induction false} StrippedEndsKeepWords(s: string)
    requires OnlyKept(s)
    ensures Words(StripRight(s, IsSpaceOrDot)) == Words(s)
  {
    if s != "" && IsSpaceOrDot(s[|s| - 1]) {
      assert IsKept(s[|s| - 1]);
      assert s == s[..|s| - 1] + " ";
      TrailingSpaceHasNoWord(s[..|s| - 1]);
      StrippedEndsKeepWords(s[..|s| - 1]);
    }
  }

  lemma {:induction false} StrippedStartsKeepWords(s: string)
    requires OnlyKept(s)
    ensures OnlyKept(StripLeft(s, IsSpaceOrDot))
    ensures Words(StripLeft(s, IsSpaceOrDot)) == Words(s)
  {
    if s != "" && IsSpaceOrDot(s[0]) {
      assert IsKept(s[0]);
      StrippedStartsKeepWords(s[1..]);
    }
  }

  lemma CleaningKeepsWords(title: string)
    ensures Words(CleanTitle(title)) == Words(KeepOnly(title, IsKept))
    ensures OnlyKept(CleanTitle(title))
    ensures CleanTitle(title) != "" ==> CleanTitle(title)[0] != ' ' && CleanTitle(title)[|CleanTitle(title)| - 1] != ' '
  {
    hide IsKept, KeepOnly, CollapseSpaces, Words;
    var kept := KeepOnly(title, IsKept);
    KeepOnlyKeeps(title);
    CollapseKeepsWords(kept);
    CollapseMakesSingleSpaced(kept);
    StrippedStartsKeepWords(CollapseSpaces(kept));
    StrippedEndsKeepWords(StripLeft(CollapseSpaces(kept), IsSpaceOrDot));
    var from := StripIsSlice(CollapseSpaces(kept), IsSpaceOrDot);
    var t := CleanTitle(title);
    assert t == CollapseSpaces(kept)[from..from + |t|];
  }

  lemma {:induction false} EndingInWord(s: string)
    requires s != "" && s[|s| - 1] != ' '
    ensures Words(s) != []
  {
    if s[0] == ' ' {
      EndingInWord(s[1..]);
    }
  }

  /** A text without spaces at its ends has one word exactly when it has no space. */
  lemma OneWord(s: string, word: string)
    requires s != "" ==> s[0] != ' ' && s[|s| - 1] != ' '
    ensures Words(s) == [] <==> s == ""
    ensures Words(s) == [word] <==> s == word && s != "" && ' ' !in s
  {
    if s != "" {
      WordSplits(s);
      var n := WordLength(s);
      var rest := s[n..];
      assert s == s[..n] + rest;
      if rest != "" {
        EndingInWord(rest);
        assert rest[0] in s;
      } else {
        assert s[..n] == s;
      }
    }
  }

  /** The names that Windows reserves. */
  lemma ReservedNames(u: string)
    ensures IsReserved(u) <==>
              || u == "CON" || u == "PRN" || u == "AUX" || u == "NUL"
              || (|u| == 4 && u[..3] == "COM" && u[3] in "123456789")
              || (|u| == 4 && u[..3] == "LPT" && u[3] in "123456789")
  {
    assert forall c: char :: '1' <= c <= '9' <==> c in "123456789";
  }

  /** The texts differ in the case of letters only. */
  ghost predicate SameButCase(s: string, u: string) {
    && |s| == |u|
    && forall i :: 0 <= i < |s| ==>
                     s[i] == u[i] || ('A' <= u[i] <= 'Z' && s[i] as int == u[i] as int + 32)
  }

  /** A reserved name in any case is letters and digits, and nothing else of the normaliser touches it. */
  lemma ReservedLetters(t: string, name: string)
    requires IsReserved(name) && SameButCase(t, name)
    ensures 3 <= |t| <= 4 && Upper(t) == name
    ensures ' ' !in t && OnlyKept(t) && SingleSpaced(t) && NoSpaceAtEnds(t) && !EndsWithMd(t) && !HasDoubleDot(t)
    ensures '/' !in t && '\\' !in t && ':' !in t
    ensures !IsSpaceOrDot(t[0]) && !IsSpaceOrDot(t[|t| - 1])
  {
    assert |name| == 3 || |name| == 4;
    forall i | 0 <= i < |name|
      ensures 'A' <= name[i] <= 'Z' || '1' <= name[i] <= '9'
      ensures IsAlnum(t[i])
    {
      assert |name| == 4 && i < 3 ==> name[i] == name[..3][i];
    }
    assert forall i :: 0 <= i < |t| ==> IsAlnum(t[i]);
  }

  /** What makes a title unfit before its characters are looked at. */
  ghost predicate HasPathSyntax(t: string) {
    || (exists i :: 0 < i < |t| && t[i - 1] == '.' && t[i] == '.')
    || '/' in t || '\\' in t || ':' in t
  }

  ghost predicate SameAsReserved(t: string) {
    exists name :: IsReserved(name) && SameButCase(t, name)
  }

  /**
   * What a title normalises to, and what is refused and why. The title is the raw one without the white space around it
   * and one ending ".md". It has to have 1 to 80 characters and no path syntax; its words, without the characters that
   * are not kept, are the words of the result, and must not be none or only a reserved name.
   */
  lemma TitleIsExact(raw: string)
    ensures var t, r := TrimTitle(raw), NormalizeTitle(raw);
            var words := Words(KeepOnly(t, IsKept));
            var fits := 1 <= |t| <= 80;
            && (r == Failure(TitleLengthInvalid) <==> !fits)
            && (r == Failure(TitlePathSyntaxRejected) <==> fits && HasPathSyntax(t))
            && (r == Failure(TitleEmptyAfterSanitization) <==> fits && !HasPathSyntax(t) && words == [])
            && (r == Failure(TitleReserved) <==>
                  && fits && !HasPathSyntax(t)
                  && exists word :: words == [word] && SameAsReserved(word))
            && (r.Success? <==>
                  && fits && !HasPathSyntax(t) && words != []
                  && !exists word :: words == [word] && SameAsReserved(word))
            && (r.Success? ==> Words(r.value) == words)
  {
    hide KeepOnly, CleanTitle, IsReserved, Upper, TrimTitle, SameAsReserved;
    var t := TrimTitle(raw);
    var clean := CleanTitle(t);
    CleaningKeepsWords(t);
    OneWord(clean, clean);
    UpperIsReserved(clean);
    forall word
      ensures Words(clean) == [word] <==> clean == word && clean != "" && ' ' !in clean
    {
      OneWord(clean, word);
    }
    assert HasDoubleDot(t) <==> exists i :: 0 < i < |t| && t[i - 1] == '.' && t[i] == '.';
  }

  /** Reserved in upper case is reserved in any case, and then without spaces. */
  lemma UpperIsReserved(t: string)
    requires OnlyKept(t)
    ensures IsReserved(Upper(t)) <==> SameAsReserved(t)
    ensures IsReserved(Upper(t)) ==> ' ' !in t && t != ""
  {
    hide IsReserved;
    assert SameButCase(t, Upper(t));
    if SameAsReserved(t) {
      var name :| IsReserved(name) && SameButCase(t, name);
      ReservedLetters(t, name);
    }
    if IsReserved(Upper(t)) {
      ReservedLetters(t, Upper(t));
    }
  }

  /** A title that is a reserved name is refused in any case, with any padding. */
  lemma ReservedTitleIsRefused(left: string, t: string, gap: string, ending: string, right: string, name: string)
    requires AllSpace(left) && AllSpace(gap) && AllSpace(right) && IsReserved(name) && SameButCase(t, name)
    requires if ending == "" then gap == "" else ending in {".md", ".Md", ".mD", ".MD"}
    ensures NormalizeTitle(left + t + gap + ending + right) == Failure(TitleReserved)
  {
    hide IsReserved, Upper, IsKept, CollapseSpaces, KeepOnly, TrimTitle, Strip;
    ReservedLetters(t, name);
    TrimIsMiddle(left, t, gap, ending, right);
    KeepOnlyFixed(t);
    CollapseFixed(t);
    StripLeavesEndsAlone(t, IsSpaceOrDot);
  }

  /**
   * What is prepared, and what is refused and why: the title that normalises, and the content with all line ends made
   * newlines and the white space around it taken away, followed by one newline, in at most 32 768 bytes.
   */
  lemma PrepareIsExact(title: string, content: string)
    ensures var body := Strip(UnifyNewlines(content), IsSpace);
            PrepareNote(title, content) ==
            if NormalizeTitle(title).Failure? then Failure(NormalizeTitle(title).error)
            else if '\0' in content then Failure(ContentNullByteRejected)
            else if body == "" then Failure(ContentEmpty)
            else if 32_767 < |body| then Failure(ContentTooLarge)
            else
              var name := NormalizeTitle(title).value;
              Success(PreparedNote(name, name + ".md", body + "\n", Sha256(body + "\n")))
  {
    TwoPassesAreOne(content);
    if '\0' !in content {
      NormalizedContentEnds(content);
    }
  }
}
