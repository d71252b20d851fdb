/** Removing untagged dates from a document: `_strip_date_token` and `strip_untagged` of
    scripts/deadline_owner_check.py.  The dates found by the scanner are given. */
module StripDates {
  import opened Sorting
  import opened Texts

  /** A date match: its 1-based line, its columns, its text, and whether an owner tag is near. */
  datatype Hit = Hit(lineNo: nat, start: nat, end: nat, text: string, tagged: bool)

  predicate IsBlank(c: char) {
    c == ' ' || c == '\t'
  }

  // ----- stripping one token ------------------------------------------------------------

  function TrimLeft(line: string, i: nat): (l: nat)
    requires i <= |line|
    ensures l <= i && (forall k :: l <= k < i ==> IsBlank(line[k]))
  {
    if i > 0 && IsBlank(line[i - 1]) then TrimLeft(line, i - 1) else i
  }

  function TrimRight(line: string, i: nat): (r: nat)
    requires i <= |line|
    ensures i <= r <= |line| && (forall k :: i <= k < r ==> IsBlank(line[k])) && (r < |line| ==> !IsBlank(line[r]))
    decreases |line| - i
  {
    if i < |line| && IsBlank(line[i]) then TrimRight(line, i + 1) else i
  }

  /** Where the trailing white space of `s[..i]` starts. */
  function TailStart(s: string, i: nat): (k: nat)
    requires i <= |s|
    ensures k <= i && (forall j :: k <= j < i ==> IsSpace(s[j])) && (k > 0 ==> !IsSpace(s[k - 1]))
  {
    if i > 0 && IsSpace(s[i - 1]) then TailStart(s, i - 1) else i
  }

  /** Where the white space that starts at `i` ends. */
  function HeadEnd(s: string, i: nat): (k: nat)
    requires i <= |s|
    ensures i <= k <= |s| && (forall j :: i <= j < k ==> IsSpace(s[j])) && (k < |s| ==> !IsSpace(s[k]))
    decreases |s| - i
  {
    if i < |s| && IsSpace(s[i]) then HeadEnd(s, i + 1) else i
  }

  function RStrip(s: string): (r: string)
    ensures |r| <= |s| && r == s[..|r|] && (forall k :: |r| <= k < |s| ==> IsSpace(s[k]))
    ensures r != [] ==> !IsSpace(r[|r| - 1])
  {
    s[..TailStart(s, |s|)]
  }

  function LStrip(s: string): (r: string)
    ensures |r| <= |s| && r == s[|s| - |r|..] && (forall k :: 0 <= k < |s| - |r| ==> IsSpace(s[k]))
    ensures r != [] ==> !IsSpace(r[0])
  {
    s[HeadEnd(s, 0)..]
  }

  /** What is left around the token, put together again. */
  function Rejoin(preContent: string, postContent: string, post: string): string {
    if preContent != [] && postContent != [] then preContent + " " + postContent
    else if preContent != [] then preContent + (if post != [] && post[|post| - 1] == '\n' then "\n" else "")
    else if postContent != [] then postContent
    else post
  }

  function Post(line: string, end: nat): string
    requires end <= |line|
  {
    line[TrimRight(line, end)..]
  }

  function PreContent(line: string, start: nat): string
    requires start <= |line|
  {
    RStrip(line[..TrimLeft(line, start)])
  }

  function StripToken(line: string, start: nat, end: nat): string
    requires start <= end <= |line|
  {
    Rejoin(PreContent(line, start), LStrip(Post(line, end)), Post(line, end))
  }

  method StripDateToken(line: string, start: nat, end: nat) returns (r: string)
    requires start <= end <= |line|
    ensures r == StripToken(line, start, end)
  {
    var trimLeft: nat := start;
    while trimLeft > 0 && IsBlank(line[trimLeft - 1])
      invariant trimLeft <= start && TrimLeft(line, trimLeft) == TrimLeft(line, start)
    {
      trimLeft := trimLeft - 1;
    }
    var trimRight := end;
    while trimRight < |line| && IsBlank(line[trimRight])
      invariant end <= trimRight <= |line| && TrimRight(line, trimRight) == TrimRight(line, end)
    {
      trimRight := trimRight + 1;
    }
    var pre, post := line[..trimLeft], line[trimRight..];
    var preContent, postContent := RStrip(pre), LStrip(post);
    if preContent != [] && postContent != [] {
      return preContent + " " + postContent;
    }
    if preContent != [] {
      var suffix := if post != [] && post[|post| - 1] == '\n' then "\n" else "";
      return preContent + suffix;
    }
    if postContent != [] {
      return postContent;
    }
    return post;
  }

  /** The characters that are not white space, in order. */
  function NonSpace(s: string): string {
    if s == [] then [] else NonSpace(s[..|s| - 1]) + (if IsSpace(s[|s| - 1]) then [] else [s[|s| - 1]])
  }

  lemma {:induction false} NonSpaceAppend(a: string, b: string)
    ensures NonSpace(a + b) == NonSpace(a) + NonSpace(b)
  {
    if b == [] {
      assert a + b == a;
    } else {
      assert (a + b)[..|a + b| - 1] == a + b[..|b| - 1];
      NonSpaceAppend(a, b[..|b| - 1]);
    }
  }

  lemma {:induction false} AllSpace(s: string)
    requires forall k :: 0 <= k < |s| ==> IsSpace(s[k])
    ensures NonSpace(s) == []
  {
    if s != [] {
      AllSpace(s[..|s| - 1]);
    }
  }

  lemma SplitNonSpace(s: string, p: nat)
    requires p <= |s|
    ensures NonSpace(s) == NonSpace(s[..p]) + NonSpace(s[p..])
  {
    hide NonSpace;
    NonSpaceAppend(s[..p], s[p..]);
    assert s[..p] + s[p..] == s;
  }

  lemma RStripNonSpace(s: string)
    ensures NonSpace(RStrip(s)) == NonSpace(s)
  {
    var k := |RStrip(s)|;
    hide NonSpace, RStrip;
    SplitNonSpace(s, k);
    AllSpace(s[k..]);
  }

  lemma LStripNonSpace(s: string)
    ensures NonSpace(LStrip(s)) == NonSpace(s)
  {
    var k := |s| - |LStrip(s)|;
    hide NonSpace, LStrip;
    SplitNonSpace(s, k);
    AllSpace(s[..k]);
  }

  lemma CutNonSpace(s: string, i: nat, j: nat)
    requires i <= j <= |s| && forall k :: i <= k < j ==> IsSpace(s[k])
    ensures NonSpace(s[..j]) == NonSpace(s[..i]) && NonSpace(s[i..]) == NonSpace(s[j..])
  {
    assert s[..j] == s[..i] + s[i..j] && s[i..] == s[i..j] + s[j..];
    NonSpaceAppend(s[..i], s[i..j]);
    NonSpaceAppend(s[i..j], s[j..]);
    AllSpace(s[i..j]);
  }

  lemma RejoinNonSpace(preContent: string, postContent: string, post: string)
    requires NonSpace(postContent) == NonSpace(post)
    ensures NonSpace(Rejoin(preContent, postContent, post)) == NonSpace(preContent) + NonSpace(post)
  {
    NothingLeft();
    NonSpaceAppend(preContent, " ");
    NonSpaceAppend(preContent + " ", postContent);
    NonSpaceAppend(preContent, "\n");
    hide NonSpace;
    assert preContent + [] == preContent;
  }

  lemma NothingLeft()
    ensures NonSpace([]) == [] && NonSpace(" ") == [] && NonSpace("\n") == []
  {
    assert " "[..0] == [] && "\n"[..0] == [];
  }

  /** One strip removes exactly the token, up to white space. */
  lemma StripTokenNonSpace(line: string, start: nat, end: nat)
    requires start <= end <= |line|
    ensures NonSpace(StripToken(line, start, end)) == NonSpace(line[..start]) + NonSpace(line[end..])
  {
    var l, post := TrimLeft(line, start), Post(line, end);
    CutNonSpace(line, l, start);
    CutNonSpace(line, end, TrimRight(line, end));
    RStripNonSpace(line[..l]);
    LStripNonSpace(post);
    RejoinNonSpace(PreContent(line, start), LStrip(post), post);
    hide NonSpace, Rejoin, RStrip, LStrip, TrimLeft, TrimRight;
  }

  // ----- what is left of the line, character by character and word by word -----------------------

  /** `p` is just after the last character before the token that is not white space, and 0 when there is none. */
  ghost predicate LastBefore(line: string, start: nat, p: nat) {
    && p <= start <= |line| && (p > 0 ==> !IsSpace(line[p - 1]))
    && forall k :: p <= k < start ==> IsSpace(line[k])
  }

  /** `q` is the first character after the token that is not white space, and the end when there is none. */
  ghost predicate FirstAfter(line: string, end: nat, q: nat) {
    && end <= q <= |line| && (q < |line| ==> !IsSpace(line[q]))
    && forall k :: end <= k < q ==> IsSpace(line[k])
  }

  /** `r` is the end of the blanks after the token. */
  ghost predicate AfterBlanks(line: string, end: nat, r: nat) {
    && end <= r <= |line| && (r < |line| ==> line[r] != ' ' && line[r] != '\t')
    && forall k :: end <= k < r ==> line[k] == ' ' || line[k] == '\t'
  }

  /** One strip, for every line: between two words exactly one space takes the place of the token and of all the white
      space around it; behind the last word only a line break stays; before the first one nothing does; and of a line
      without a word what follows the blanks after the token. */
  lemma StripTokenIs(line: string, start: nat, end: nat, p: nat, q: nat, r: nat)
    requires start <= end && LastBefore(line, start, p) && FirstAfter(line, end, q) && AfterBlanks(line, end, r)
    ensures StripToken(line, start, end)
         == if p > 0 && q < |line| then line[..p] + " " + line[q..]
            else if p > 0 then line[..p] + (if end < |line| && line[|line| - 1] == '\n' then "\n" else "")
            else if q < |line| then line[q..]
            else line[r..]
  {
    assert StripToken(line, start, end) == Rejoin(PreContent(line, start), LStrip(Post(line, end)), Post(line, end));
    hide *;
    PreContentIs(line, start, p);
    PostIs(line, end, r);
    PostContentIs(line, end, q, r);
    BlanksAreSpace(line, end, q, r);
    RejoinIs(line, end, p, q, r);
  }

  lemma LastIsUnique(line: string, start: nat, p: nat, p': nat)
    requires LastBefore(line, start, p) && LastBefore(line, start, p')
    ensures p == p'
  {
    hide IsSpace;
  }

  lemma FirstIsUnique(line: string, end: nat, q: nat, q': nat)
    requires FirstAfter(line, end, q) && FirstAfter(line, end, q')
    ensures q == q'
  {
    hide IsSpace;
  }

  lemma BlanksAreUnique(line: string, end: nat, r: nat, r': nat)
    requires AfterBlanks(line, end, r) && AfterBlanks(line, end, r')
    ensures r == r'
  {
  }

  lemma PreContentIs(line: string, start: nat, p: nat)
    requires LastBefore(line, start, p)
    ensures PreContent(line, start) == line[..p]
  {
    hide TrimLeft, RStrip, IsSpace, IsBlank;
    BlankIsWhite();
    var l, pc := TrimLeft(line, start), PreContent(line, start);
    forall k | |pc| <= k < start ensures IsSpace(line[k]) {
      if k < l {
        assert line[..l][k] == line[k];
      } else {
        assert IsBlank(line[k]);
      }
    }
    LastIsUnique(line, start, p, |pc|);
  }

  lemma BlankIsWhite()
    ensures forall c :: IsBlank(c) ==> IsSpace(c)
    ensures !IsBlank('\n') && IsSpace('\n')
  {
  }

  lemma TrimRightIs(line: string, end: nat)
    requires end <= |line|
    ensures AfterBlanks(line, end, TrimRight(line, end))
  {
    hide TrimRight;
    assert forall c :: IsBlank(c) <==> c == ' ' || c == '\t';
    hide IsBlank;
  }

  lemma PostIs(line: string, end: nat, r: nat)
    requires AfterBlanks(line, end, r)
    ensures Post(line, end) == line[r..]
  {
    hide TrimRight, AfterBlanks;
    assert end <= |line| by { AfterBlanksInside(line, end, r); }
    TrimRightIs(line, end);
    BlanksAreUnique(line, end, r, TrimRight(line, end));
  }

  lemma AfterBlanksInside(line: string, end: nat, r: nat)
    requires AfterBlanks(line, end, r)
    ensures end <= r <= |line| && forall k :: end <= k < r ==> IsSpace(line[k])
  {
    assert IsSpace(' ') && IsSpace('\t');
    hide IsSpace;
  }

  lemma PostContentIs(line: string, end: nat, q: nat, r: nat)
    requires FirstAfter(line, end, q) && AfterBlanks(line, end, r)
    ensures r <= q && LStrip(line[r..]) == line[q..]
  {
    AfterBlanksInside(line, end, r);
    hide LStrip, IsSpace, AfterBlanks;
    var post := line[r..];
    var k := |post| - |LStrip(post)|;
    assert line[r + k..] == post[k..];
    forall n | end <= n < r + k ensures IsSpace(line[n]) {
      if n >= r {
        assert post[n - r] == line[n];
      }
    }
    assert r + k < |line| ==> line[r + k] == LStrip(post)[0];
    FirstIsUnique(line, end, q, r + k);
  }

  lemma BlanksAreSpace(line: string, end: nat, q: nat, r: nat)
    requires FirstAfter(line, end, q) && AfterBlanks(line, end, r)
    ensures r < |line| && line[|line| - 1] == '\n' <==> end < |line| && line[|line| - 1] == '\n'
  {
  }

  lemma RejoinIs(line: string, end: nat, p: nat, q: nat, r: nat)
    requires p <= end <= r <= q <= |line|
    requires r < |line| && line[|line| - 1] == '\n' <==> end < |line| && line[|line| - 1] == '\n'
    ensures Rejoin(line[..p], line[q..], line[r..])
         == if p > 0 && q < |line| then line[..p] + " " + line[q..]
            else if p > 0 then line[..p] + (if end < |line| && line[|line| - 1] == '\n' then "\n" else "")
            else if q < |line| then line[q..]
            else line[r..]
  {
    assert r < |line| ==> line[r..][|line| - r - 1] == line[|line| - 1];
  }

  /** The words of a text: what stands between white space, in order. */
  function Words(s: string): seq<string> {
    if s == [] then []
    else
      var init, c := s[..|s| - 1], s[|s| - 1];
      var before := Words(init);
      if IsSpace(c) then before
      else if init == [] || IsSpace(init[|init| - 1]) || before == [] then before + [[c]]
      else before[..|before| - 1] + [before[|before| - 1] + [c]]
  }

  lemma {:induction false} NoWords(s: string)
    requires forall k :: 0 <= k < |s| ==> IsSpace(s[k])
    ensures Words(s) == []
  {
    hide IsSpace;
    if s != [] {
      NoWords(s[..|s| - 1]);
    }
  }

  lemma {:induction false} SomeWord(s: string)
    requires s != [] && !IsSpace(s[|s| - 1])
    ensures Words(s) != []
  {
  }

  /** Words on both sides of white space are words of the whole. */
  lemma {:induction false} WordsApart(a: string, b: string)
    requires a == [] || b == [] || IsSpace(a[|a| - 1]) || IsSpace(b[0])
    ensures Words(a + b) == Words(a) + Words(b)
  {
    hide Words, IsSpace;
    if b == [] {
      assert a + b == a;
      NoWords(b);
    } else {
      var init, c := b[..|b| - 1], b[|b| - 1];
      assert b == init + [c];
      WordsApart(a, init);
      if init == [] {
        assert b == [c];
        FirstOfWord(a, c);
      } else if !IsSpace(c) && !IsSpace(init[|init| - 1]) {
        SomeWord(init);
        LongerWord(a, init, c);
      } else {
        NextWord(a, init, c);
      }
    }
  }

  lemma FirstOfWord(a: string, c: char)
    requires a == [] || IsSpace(a[|a| - 1]) || IsSpace(c)
    ensures Words(a + [c]) == Words(a) + Words([c])
  {
    hide IsSpace;
    assert (a + [c])[..|a|] == a && [c][..0] == [];
    assert Words([]) == [];
  }

  lemma LongerWord(a: string, init: string, c: char)
    requires init != [] && !IsSpace(c) && !IsSpace(init[|init| - 1]) && Words(init) != []
    requires Words(a + init) == Words(a) + Words(init)
    ensures Words(a + (init + [c])) == Words(a) + Words(init + [c])
  {
    hide IsSpace, Words;
    OneMoreLetter(init, c);
    assert (a + init)[|a + init| - 1] == init[|init| - 1];
    OneMoreLetter(a + init, c);
    assert a + (init + [c]) == a + init + [c];
    var all, own := Words(a) + Words(init), Words(init);
    assert all[|all| - 1] == own[|own| - 1];
    assert all[..|all| - 1] == Words(a) + own[..|own| - 1];
  }

  lemma OneMoreLetter(s: string, c: char)
    requires s != [] && !IsSpace(c) && !IsSpace(s[|s| - 1]) && Words(s) != []
    ensures var before := Words(s);
            Words(s + [c]) == before[..|before| - 1] + [before[|before| - 1] + [c]]
  {
    hide IsSpace;
    assert (s + [c])[..|s|] == s;
  }

  lemma NextWord(a: string, init: string, c: char)
    requires init != [] && (IsSpace(c) || IsSpace(init[|init| - 1]))
    requires Words(a + init) == Words(a) + Words(init)
    ensures Words(a + (init + [c])) == Words(a) + Words(init + [c])
  {
    hide IsSpace, Words;
    OneMoreWord(init, c);
    assert (a + init)[|a + init| - 1] == init[|init| - 1];
    OneMoreWord(a + init, c);
    assert a + (init + [c]) == a + init + [c];
  }

  lemma OneMoreWord(s: string, c: char)
    requires s != [] && (IsSpace(c) || IsSpace(s[|s| - 1]))
    ensures Words(s + [c]) == if IsSpace(c) then Words(s) else Words(s) + [[c]]
  {
    hide IsSpace;
    assert (s + [c])[..|s|] == s;
  }

  lemma WordsAround(a: string, b: string)
    ensures Words(a + " " + b) == Words(a) + Words(b)
  {
    assert IsSpace(' ');
    hide IsSpace;
    NoWords(" ");
    WordsApart(a, " ");
    WordsApart(a + " ", b);
  }

  lemma SpaceAround(line: string, i: nat, j: nat, k: nat)
    requires i <= j <= k <= |line|
    ensures (forall n :: i <= n < j ==> IsSpace(line[n])) ==> Words(line[i..k]) == Words(line[j..k])
    ensures (forall n :: j <= n < k ==> IsSpace(line[n])) ==> Words(line[i..k]) == Words(line[i..j])
  {
    hide Words, IsSpace;
    assert line[i..k] == line[i..j] + line[j..k];
    if forall n :: i <= n < j ==> IsSpace(line[n]) {
      NoWords(line[i..j]);
      WordsApart(line[i..j], line[j..k]);
    }
    if forall n :: j <= n < k ==> IsSpace(line[n]) {
      NoWords(line[j..k]);
      WordsApart(line[i..j], line[j..k]);
    }
  }

  /** The characters that `StripTokenIs` names exist. */
  lemma AroundToken(line: string, start: nat, end: nat) returns (p: nat, q: nat, r: nat)
    requires start <= end <= |line|
    ensures LastBefore(line, start, p) && FirstAfter(line, end, q) && AfterBlanks(line, end, r) && r <= q
  {
    hide IsSpace;
    p, q, r := TailStart(line, start), HeadEnd(line, end), TrimRight(line, end);
    PostContentIs(line, end, q, r);
  }

  /** What is left of a line from `from` on has the words before the token and the words after it: the token counts as
      a blank. */
  lemma StripTokenWords(line: string, start: nat, end: nat, from: nat)
    requires from <= start <= end <= |line| && (from > 0 ==> !IsSpace(line[from - 1]))
    ensures from <= |StripToken(line, start, end)|
    ensures Words(StripToken(line, start, end)[from..]) == Words(line[from..start]) + Words(line[end..])
  {
    hide *;
    var p, q, r := AroundToken(line, start, end);
    StripTokenIs(line, start, end, p, q, r);
    PartsOfLine(line, start, end, from, p, q, r);
    var left, right := line[from..p], line[q..];
    SpaceAround(line, from, p, start);
    SpaceAround(line, end, q, |line|);
    SpaceAround(line, end, r, |line|);
    assert line[end..|line|] == line[end..] && line[q..|line|] == right && line[r..|line|] == line[r..];
    NoWords("");
    BlankIsWhite();
    NoWords("\n");
    WordsApart(left, "\n");
    WordsAround(left, right);
    if p > 0 {
      assert (line[..p] + " " + right)[from..] == left + " " + right;
      assert (line[..p] + "\n")[from..] == left + "\n" && (line[..p] + "")[from..] == left;
    }
  }

  lemma PartsOfLine(line: string, start: nat, end: nat, from: nat, p: nat, q: nat, r: nat)
    requires from <= start <= end <= |line| && (from > 0 ==> !IsSpace(line[from - 1]))
    requires LastBefore(line, start, p) && FirstAfter(line, end, q) && AfterBlanks(line, end, r)
    ensures from <= p <= start && end <= q <= |line| && end <= r <= |line|
    ensures forall k :: p <= k < start ==> IsSpace(line[k])
    ensures forall k :: end <= k < q ==> IsSpace(line[k])
    ensures forall k :: end <= k < r ==> IsSpace(line[k])
  {
    AfterBlanksInside(line, end, r);
    hide IsSpace;
  }

  /** The two strings agree on their first `p` characters. */
  ghost predicate SamePrefix(a: string, b: string, p: nat) {
    p <= |a| && p <= |b| && forall k :: 0 <= k < p ==> a[k] == b[k]
  }

  /** Everything up to a non-space character left of the token stays where it is. */
  lemma PreContentKeeps(line: string, start: nat, p: nat)
    requires 0 < p <= start <= |line| && !IsSpace(line[p - 1])
    ensures SamePrefix(PreContent(line, start), line, p)
  {
    hide TrimLeft, RStrip;
    var l := TrimLeft(line, start);
    assert p <= l;
    assert p <= |RStrip(line[..l])|;
  }

  lemma StripTokenKeepsPrefix(line: string, start: nat, end: nat, p: nat)
    requires start <= end <= |line| && 0 < p <= start && !IsSpace(line[p - 1])
    ensures SamePrefix(StripToken(line, start, end), line, p)
  {
    var pc, post := PreContent(line, start), Post(line, end);
    assert StripToken(line, start, end) == Rejoin(pc, LStrip(post), post);
    hide *;
    PreContentKeeps(line, start, p);
    RejoinPrefix(pc, LStrip(post), post, line, p);
  }

  lemma RejoinPrefix(pc: string, q: string, post: string, line: string, p: nat)
    requires p > 0 && SamePrefix(pc, line, p)
    ensures SamePrefix(Rejoin(pc, q, post), line, p)
  {
  }

  predicate EndsWith(s: string, tail: string) {
    |tail| <= |s| && s[|s| - |tail|..] == tail
  }

  lemma SuffixOfSuffix(xs: string, i: nat, j: nat)
    requires i + j <= |xs|
    ensures xs[i..][j..] == xs[i + j..]
  {
  }

  /** Everything from a non-space character right of the token on stays at the end. */
  lemma PostContentKeeps(line: string, end: nat, a: nat)
    requires end <= a < |line| && !IsSpace(line[a])
    ensures EndsWith(LStrip(Post(line, end)), line[a..])
  {
    hide LStrip, TrimRight;
    var rr := TrimRight(line, end);
    var post := Post(line, end);
    assert rr <= a;
    assert post[a - rr] == line[a];
    LStripKeeps(post, a - rr);
    SuffixOfSuffix(line, rr, a - rr);
  }

  lemma LStripKeeps(post: string, i: nat)
    requires i < |post| && !IsSpace(post[i])
    ensures EndsWith(LStrip(post), post[i..])
  {
    hide LStrip;
    var k := |post| - |LStrip(post)|;
    assert k <= i;
    SuffixOfSuffix(post, k, i - k);
  }

  lemma RejoinSuffix(pc: string, q: string, post: string, tail: string)
    requires tail != [] && EndsWith(q, tail)
    ensures EndsWith(Rejoin(pc, q, post), tail) && |pc| + |tail| <= |Rejoin(pc, q, post)|
  {
    if pc != [] {
      assert (pc + " " + q)[|pc| + 1 + |q| - |tail|..] == q[|q| - |tail|..];
    }
  }

  /** ... and stays behind any kept prefix. */
  lemma StripTokenKeepsSuffix(line: string, start: nat, end: nat, a: nat, p: nat)
    requires start <= end <= a < |line| && !IsSpace(line[a])
    requires p <= start && (p > 0 ==> !IsSpace(line[p - 1]))
    ensures EndsWith(StripToken(line, start, end), line[a..])
    ensures p + (|line| - a) <= |StripToken(line, start, end)|
  {
    var pc, post, tail := PreContent(line, start), Post(line, end), line[a..];
    assert StripToken(line, start, end) == Rejoin(pc, LStrip(post), post);
    assert |tail| == |line| - a;
    hide *;
    if p > 0 {
      PreContentKeeps(line, start, p);
    }
    PostContentKeeps(line, end, a);
    RejoinSuffix(pc, LStrip(post), post, tail);
  }

  /** One line: a line break at the end and nowhere else. */
  predicate Terminated(line: string) {
    |line| > 0 && line[|line| - 1] == '\n' && forall k :: 0 <= k < |line| - 1 ==> line[k] != '\n'
  }

  lemma StripTokenTerminated(line: string, start: nat, end: nat)
    requires Terminated(line) && start <= end < |line|
    ensures Terminated(StripToken(line, start, end))
  {
    hide TrimLeft, TrimRight, RStrip, LStrip, Rejoin;
    var r := TrimRight(line, end);
    assert r < |line|;
    var post := line[r..];
    TerminatedSlice(line, r);
    var q := LStrip(post);
    if q != [] { TerminatedSlice(post, |post| - |q|); }
    PreContentInside(line, start);
    hide PreContent, Terminated;
    RejoinTerminated(PreContent(line, start), q, post);
  }

  lemma PreContentInside(line: string, start: nat)
    requires Terminated(line) && start < |line|
    ensures '\n' !in PreContent(line, start)
  {
    hide TrimLeft, RStrip;
    var pc := PreContent(line, start);
    assert forall k :: 0 <= k < |pc| ==> pc[k] == line[k];
  }

  lemma RejoinTerminated(pc: string, q: string, post: string)
    requires Terminated(post) && (q == [] || Terminated(q)) && '\n' !in pc
    ensures Terminated(Rejoin(pc, q, post))
  {
  }

  lemma TerminatedSlice(line: string, i: nat)
    requires Terminated(line) && i < |line|
    ensures Terminated(line[i..])
  {
  }

  // ----- stripping the hits of one line ----------------------------------------------------

  predicate Matches(line: string, text: string, i: nat) {
    i + |text| <= |line| && forall k :: 0 <= k < |text| ==> line[i + k] == text[k]
  }

  /** `str.find(text, from)`; -1 when there is none. */
  function Find(line: string, text: string, from: nat): (r: int)
    ensures r < 0 || (from <= r && Matches(line, text, r))
    decreases |line| - from
  {
    if from + |text| > |line| then -1
    else if Matches(line, text, from) then from
    else if from == |line| then -1
    else Find(line, text, from + 1)
  }

  /** Where the script starts looking for a hit: one column early. */
  function LookFrom(h: Hit): nat {
    if h.start == 0 then 0 else h.start - 1
  }

  function StripHit(line: string, h: Hit): string {
    var i := Find(line, h.text, LookFrom(h));
    if i < 0 then line else StripToken(line, i, i + |h.text|)
  }

  /** The hits one after another, in the order given. */
  function StripLine(line: string, hits: seq<Hit>): string
    decreases |hits|
  {
    if hits == [] then line else StripLine(StripHit(line, hits[0]), hits[1..])
  }

  /** What a date match looks like: at least two characters, not all the same, no space at either end, one line. */
  ghost predicate IsDate(text: string) {
    && |text| >= 2 && !IsSpace(text[0]) && !IsSpace(text[|text| - 1])
    && (exists k :: 0 <= k < |text| - 1 && text[k] != text[k + 1])
    && '\n' !in text
  }

  ghost predicate At(line: string, h: Hit) {
    h.end == h.start + |h.text| && Matches(line, h.text, h.start) && IsDate(h.text)
  }

  /** A date does not also match one place earlier. */
  lemma NoMatchBefore(line: string, text: string, i: nat)
    requires Matches(line, text, i + 1) && IsDate(text)
    ensures !Matches(line, text, i)
  {
    var k :| 0 <= k < |text| - 1 && text[k] != text[k + 1];
    assert line[(i + 1) + k] == text[k];
    assert line[i + (k + 1)] != text[k + 1];
  }

  /** Looking from one column early always lands on the hit itself, because a date is not one character repeated. */
  lemma FindLandsOnHit(line: string, h: Hit)
    requires At(line, h)
    ensures Find(line, h.text, LookFrom(h)) == h.start
  {
    if h.start > 0 {
      NoMatchBefore(line, h.text, h.start - 1);
    }
  }

  /** Right to left and disjoint. */
  ghost predicate RightToLeft(hits: seq<Hit>) {
    forall i, j :: 0 <= i < j < |hits| ==> hits[j].end <= hits[i].start
  }

  ghost predicate Placed(line: string, hits: seq<Hit>) {
    RightToLeft(hits) && forall i :: 0 <= i < |hits| ==> At(line, hits[i])
  }

  lemma StripHitIsStripToken(line: string, h: Hit)
    requires At(line, h)
    ensures StripHit(line, h) == StripToken(line, h.start, h.end)
  {
    hide Find, StripToken, Matches, IsDate, LookFrom;
    FindLandsOnHit(line, h);
  }

  /** A hit left of the stripped one is still in its place. */
  lemma StillAt(line: string, h: Hit, left: Hit)
    requires At(line, h) && At(line, left) && left.end <= h.start
    ensures At(StripHit(line, h), left)
    ensures SamePrefix(StripHit(line, h), line, left.end)
  {
    hide StripToken, StripHit;
    StripHitIsStripToken(line, h);
    assert line[left.start + (|left.text| - 1)] == left.text[|left.text| - 1];
    hide IsSpace;
    StripTokenKeepsPrefix(line, h.start, h.end, left.end);
    var r := StripToken(line, h.start, h.end);
    forall k | 0 <= k < |left.text| ensures r[left.start + k] == left.text[k] {
      assert r[left.start + k] == line[left.start + k];
    }
  }

  /** So stripping the rightmost hit leaves the others placed. */
  lemma StillPlaced(line: string, hits: seq<Hit>)
    requires Placed(line, hits) && hits != []
    ensures Placed(StripHit(line, hits[0]), hits[1..])
  {
    hide At, StripHit, SamePrefix;
    forall i | 0 <= i < |hits| - 1 ensures At(StripHit(line, hits[0]), hits[1..][i]) {
      StillAt(line, hits[0], hits[i + 1]);
    }
  }

  /** The line with the hits cut out and nothing else. */
  ghost function Deleted(line: string, hits: seq<Hit>): string
    requires Placed(line, hits)
    decreases |hits|
  {
    if hits == [] then line
    else
      PlacedLeft(line, hits);
      Deleted(line[..hits[0].start], hits[1..]) + line[hits[0].end..]
  }

  /** The line with a blank in the place of each hit. */
  ghost function Blanked(line: string, hits: seq<Hit>): string
    requires Placed(line, hits)
    decreases |hits|
  {
    if hits == [] then line
    else
      PlacedLeft(line, hits);
      Blanked(line[..hits[0].start], hits[1..]) + " " + line[hits[0].end..]
  }

  /** Word by word: what is left of a line has the words of the line with a blank in the place of each hit; so no two
      words are glued together, and none is split. */
  lemma {:induction false} StripLineWords(line: string, hits: seq<Hit>)
    requires Placed(line, hits)
    ensures Words(StripLine(line, hits)) == Words(Blanked(line, hits))
    decreases |hits|
  {
    if hits != [] {
      var cur, rest := StripHit(line, hits[0]), hits[1..];
      StillPlaced(line, hits);
      StripLineWords(cur, rest);
      hide Words, StripHit, Placed, Blanked;
      OneHitWords(line, hits);
    }
  }

  lemma BlankedTurn(line: string, hits: seq<Hit>)
    requires Placed(line, hits) && hits != []
    ensures var h := hits[0];
            && At(line, h) && h.start <= h.end <= |line| && Placed(line[..h.start], hits[1..])
            && Blanked(line, hits) == Blanked(line[..h.start], hits[1..]) + " " + line[h.end..]
  {
    PlacedLeft(line, hits);
    assert At(line, hits[0]);
    hide IsDate, Matches, Placed;
  }

  lemma NothingBlanked(line: string)
    ensures Placed(line, []) && Blanked(line, []) == line
  {
  }

  lemma NextIsLeft(line: string, hits: seq<Hit>)
    requires Placed(line, hits) && |hits| >= 2
    ensures At(line, hits[1]) && hits[1].end <= hits[0].start
  {
    hide At;
  }

  lemma OneHitWords(line: string, hits: seq<Hit>)
    requires Placed(line, hits) && hits != [] && Placed(StripHit(line, hits[0]), hits[1..])
    ensures Words(Blanked(StripHit(line, hits[0]), hits[1..])) == Words(Blanked(line, hits))
  {
    hide *;
    BlankedTurn(line, hits);
    var h, cur, rest := hits[0], StripHit(line, hits[0]), hits[1..];
    var left, right := line[..h.start], line[h.end..];
    StripHitIsStripToken(line, h);
    WordsAround(Blanked(left, rest), right);
    if rest == [] {
      NothingBlanked(cur);
      NothingBlanked(left);
      assert line[0..h.start] == left && cur[0..] == cur;
      StripTokenWords(line, h.start, h.end, 0);
    } else {
      NextIsLeft(line, hits);
      var p := rest[0].end;
      StillAt(line, h, rest[0]);
      LastOf(line, rest[0]);
      StripTokenWords(line, h.start, h.end, p);
      SamePrefixLeft(cur, line, p, h.start);
      assert left[p..] == line[p..h.start];
      BlankedAfterPrefix(cur, left, rest, Words(right));
    }
  }

  /** Two lines that agree up to the end of the first hit, one with the words of the other and `tail` behind it. */
  lemma BlankedAfterPrefix(cur: string, left: string, hits: seq<Hit>, tail: seq<string>)
    requires Placed(cur, hits) && Placed(left, hits) && hits != []
    requires SamePrefix(cur, left, hits[0].end)
    requires hits[0].end <= |cur| && hits[0].end <= |left|
    requires Words(cur[hits[0].end..]) == Words(left[hits[0].end..]) + tail
    ensures Words(Blanked(cur, hits)) == Words(Blanked(left, hits)) + tail
  {
    hide *;
    BlankedTurn(cur, hits);
    BlankedTurn(left, hits);
    SameHead(cur, left, hits[0].end, hits[0].start);
    WordsBehind(Blanked(cur[..hits[0].start], hits[1..]), cur[hits[0].end..], left[hits[0].end..], tail);
  }

  lemma SameHead(a: string, b: string, n: nat, m: nat)
    requires SamePrefix(a, b, n) && m <= n
    ensures m <= |a| && m <= |b| && a[..m] == b[..m]
  {
  }

  lemma WordsBehind(head: string, x: string, y: string, tail: seq<string>)
    requires Words(x) == Words(y) + tail
    ensures Words(head + " " + x) == Words(head + " " + y) + tail
  {
    hide *;
    WordsAround(head, x);
    WordsAround(head, y);
  }

  lemma PlacedLeft(line: string, hits: seq<Hit>)
    requires Placed(line, hits) && hits != []
    ensures Placed(line[..hits[0].start], hits[1..])
  {
    var s := hits[0].start;
    forall i | 0 <= i < |hits| - 1 ensures At(line[..s], hits[1..][i]) {
      assert At(line, hits[i + 1]);
    }
  }

  /** Conservation: what is left of a line is, up to white space, the line with exactly the hits cut out. */
  lemma {:induction false} StripLineNonSpace(line: string, hits: seq<Hit>)
    requires Placed(line, hits)
    ensures NonSpace(StripLine(line, hits)) == NonSpace(Deleted(line, hits))
    decreases |hits|
  {
    if hits != [] {
      var cur, rest := StripHit(line, hits[0]), hits[1..];
      StillPlaced(line, hits);
      StripLineNonSpace(cur, rest);
      OneHitNonSpace(line, hits);
    }
  }

  lemma OneHitNonSpace(line: string, hits: seq<Hit>)
    requires Placed(line, hits) && hits != [] && Placed(StripHit(line, hits[0]), hits[1..])
    ensures NonSpace(Deleted(StripHit(line, hits[0]), hits[1..])) == NonSpace(Deleted(line, hits))
  {
    var h, cur, rest := hits[0], StripHit(line, hits[0]), hits[1..];
    var left, right := line[..h.start], line[h.end..];
    PlacedLeft(line, hits);
    assert Deleted(line, hits) == Deleted(left, rest) + right;
    assert rest != [] ==> At(line, rest[0]) && rest[0].end <= h.start && At(line, h);
    assert rest == [] ==> Deleted(cur, rest) == cur && Deleted(left, rest) == left;
    hide *;
    StripHitIsStripToken(line, h);
    StripTokenNonSpace(line, h.start, h.end);
    NonSpaceAppend(Deleted(left, rest), right);
    if rest != [] {
      StillAt(line, h, rest[0]);
      SamePrefixLeft(cur, line, rest[0].end, h.start);
      DeletedAfterPrefix(cur, left, rest, NonSpace(right));
    }
  }

  lemma SamePrefixLeft(cur: string, line: string, p: nat, s: nat)
    requires SamePrefix(cur, line, p) && p <= s <= |line|
    ensures SamePrefix(cur, line[..s], p) && p <= |cur|
  {
  }

  lemma DeletedAfterPrefix(cur: string, left: string, hits: seq<Hit>, tail: string)
    requires Placed(cur, hits) && Placed(left, hits) && hits != []
    requires SamePrefix(cur, left, hits[0].end) && NonSpace(cur) == NonSpace(left) + tail
    ensures NonSpace(Deleted(cur, hits)) == NonSpace(Deleted(left, hits)) + tail
  {
    var g := hits[0];
    PlacedLeft(cur, hits);
    PlacedLeft(left, hits);
    assert At(cur, g);
    assert cur[..g.start] == left[..g.start];
    CutPrefix(cur, left, g.end, Deleted(cur[..g.start], hits[1..]), tail);
    hide NonSpace;
  }

  /** Two lines that agree up to `p`, one with `tail` more non-space characters, differ by `tail` after `p`. */
  lemma CutPrefix(cur: string, left: string, p: nat, x: string, tail: string)
    requires SamePrefix(cur, left, p) && NonSpace(cur) == NonSpace(left) + tail
    ensures NonSpace(x + cur[p..]) == NonSpace(x + left[p..]) + tail
  {
    assert cur[..p] == left[..p];
    hide *;
    SplitNonSpace(cur, p);
    SplitNonSpace(left, p);
    NonSpaceAppend(x, cur[p..]);
    NonSpaceAppend(x, left[p..]);
    var head, a, b := NonSpace(cur[..p]), NonSpace(cur[p..]), NonSpace(left[p..]);
    AfterHead(NonSpace(cur), NonSpace(left), head, a, b, NonSpace(x), tail);
  }

  lemma AfterHead(cur: string, left: string, head: string, a: string, b: string, x: string, tail: string)
    requires cur == head + a && left == head + b && cur == left + tail
    ensures x + a == x + b + tail
  {
    assert a == cur[|head|..];
    assert b + tail == (left + tail)[|head|..];
    assert x + (b + tail) == x + b + tail;
  }

  /** A stripped line keeps its line break, and gains none. */
  lemma {:induction false} StripLineTerminated(line: string, hits: seq<Hit>)
    requires Placed(line, hits) && Terminated(line)
    ensures Terminated(StripLine(line, hits))
    decreases |hits|
  {
    if hits != [] {
      HitInside(line, hits[0]);
      StripHitIsStripToken(line, hits[0]);
      StripTokenTerminated(line, hits[0].start, hits[0].end);
      StillPlaced(line, hits);
      StripLineTerminated(StripHit(line, hits[0]), hits[1..]);
    }
  }

  lemma HitInside(line: string, h: Hit)
    requires At(line, h) && Terminated(line)
    ensures h.start < h.end < |line|
  {
    var last := |h.text| - 1;
    assert line[h.start + last] == h.text[last];
    assert h.text[last] in h.text;
  }

  /** A line without a break gains none. */
  lemma {:induction false} StripLineUnbroken(line: string, hits: seq<Hit>)
    requires Placed(line, hits) && '\n' !in line
    ensures '\n' !in StripLine(line, hits)
    decreases |hits|
  {
    if hits != [] {
      assert At(line, hits[0]);
      StripHitIsStripToken(line, hits[0]);
      StripTokenUnbroken(line, hits[0].start, hits[0].end);
      StillPlaced(line, hits);
      hide StripHit, StripToken, Placed;
      StripLineUnbroken(StripHit(line, hits[0]), hits[1..]);
    }
  }

  lemma StripTokenUnbroken(line: string, start: nat, end: nat)
    requires start <= end <= |line| && '\n' !in line
    ensures '\n' !in StripToken(line, start, end)
  {
    hide TrimLeft, TrimRight, RStrip, LStrip;
    var pc, post := PreContent(line, start), Post(line, end);
    var q := LStrip(post);
    assert forall k :: 0 <= k < |pc| ==> pc[k] == line[k];
    assert forall k :: 0 <= k < |post| ==> post[k] in line;
    assert forall k :: 0 <= k < |q| ==> q[k] in post;
  }

  predicate AllBlank(s: string) {
    forall k :: 0 <= k < |s| ==> IsBlank(s[k])
  }

  lemma {:induction false} NonSpaceNothing(s: string)
    requires NonSpace(s) == []
    ensures forall k :: 0 <= k < |s| ==> IsSpace(s[k])
  {
    if s != [] {
      NonSpaceNothing(s[..|s| - 1]);
    }
  }

  /** One strip leaves nothing exactly when there is nothing but white space before the token and nothing but blanks
      after it. */
  lemma TokenVanishesExactlyWhen(line: string, start: nat, end: nat)
    requires start <= end <= |line| && '\n' !in line
    ensures StripToken(line, start, end) == [] <==> NonSpace(line[..start]) == [] && AllBlank(line[end..])
  {
    hide NonSpace, RStrip, LStrip, TrimLeft, TrimRight;
    var l, r := TrimLeft(line, start), TrimRight(line, end);
    CutNonSpace(line, l, start);
    RStripNonSpace(line[..l]);
    var pc := PreContent(line, start);
    if NonSpace(pc) == [] { NonSpaceNothing(pc); }
    if pc == [] { AllSpace(pc); }
    assert NonSpace(line[..start]) == [] <==> pc == [];
    assert Post(line, end) == [] <==> r == |line|;
    assert r < |line| ==> !IsBlank(line[end..][r - end]);
    assert r == |line| ==> AllBlank(line[end..]);
    assert LStrip([]) == [];
  }

  /** The rightmost of several dates, with nothing but white space after it, takes everything after the next date. */
  lemma RightmostTakesTheRest(line: string, hits: seq<Hit>)
    requires Placed(line, hits) && |hits| >= 2 && '\n' !in line && NonSpace(Deleted(line, hits)) == []
    ensures var cur := StripHit(line, hits[0]);
            && Placed(cur, hits[1..]) && NonSpace(Deleted(cur, hits[1..])) == []
            && hits[1].end <= |cur| && cur[hits[1].end..] == []
  {
    assert At(line, hits[0]) && At(line, hits[1]) && hits[1..][0] == hits[1];
    assert 0 < hits[1].end <= hits[0].start <= hits[0].end <= |line|;
    hide *;
    StillPlaced(line, hits);
    OneHitNonSpace(line, hits);
    TailIsSpace(line, hits);
    TailIsSpace(StripHit(line, hits[0]), hits[1..]);
    NothingAfter(line, hits[0], hits[1]);
  }

  lemma NothingAfter(line: string, h: Hit, g: Hit)
    requires At(line, h) && At(line, g) && 0 < g.end <= h.start <= h.end <= |line| && '\n' !in line
    requires NonSpace(line[h.end..]) == []
    requires g.end <= |StripHit(line, h)| && NonSpace(StripHit(line, h)[g.end..]) == []
    ensures StripHit(line, h)[g.end..] == []
  {
    hide *;
    StripHitIsStripToken(line, h);
    LastOf(line, g);
    PreContentKeeps(line, h.start, g.end);
    OnlyPreContent(line, h.start, h.end, g.end);
    EndsInText(StripHit(line, h), g.end);
  }

  /** Nothing but white space outside the hits means nothing but white space after the rightmost. */
  lemma TailIsSpace(line: string, hits: seq<Hit>)
    requires Placed(line, hits) && hits != [] && NonSpace(Deleted(line, hits)) == []
    ensures hits[0].end <= |line| && NonSpace(line[hits[0].end..]) == []
  {
    assert At(line, hits[0]);
    PlacedLeft(line, hits);
    hide NonSpace;
    NonSpaceAppend(Deleted(line[..hits[0].start], hits[1..]), line[hits[0].end..]);
  }

  lemma OnlyPreContent(line: string, start: nat, end: nat, p: nat)
    requires start <= end <= |line| && '\n' !in line && NonSpace(line[end..]) == []
    requires 0 < p && SamePrefix(PreContent(line, start), line, p)
    ensures StripToken(line, start, end) == PreContent(line, start)
    ensures |PreContent(line, start)| >= p && !IsSpace(PreContent(line, start)[|PreContent(line, start)| - 1])
  {
    hide NonSpace, TrimLeft, RStrip, LStrip, Rejoin;
    var pc, post := PreContent(line, start), Post(line, end);
    SpaceAfter(line, end);
    RejoinNothing(pc, post);
  }

  lemma RejoinNothing(pc: string, post: string)
    requires pc != [] && '\n' !in post
    ensures Rejoin(pc, [], post) == pc
  {
    assert pc + [] == pc;
  }

  /** Nothing but white space after a token, and no break. */
  lemma SpaceAfter(line: string, end: nat)
    requires end <= |line| && '\n' !in line && NonSpace(line[end..]) == []
    ensures LStrip(Post(line, end)) == [] && '\n' !in Post(line, end)
  {
    hide NonSpace, LStrip, TrimRight;
    var post := Post(line, end);
    CutNonSpace(line, end, TrimRight(line, end));
    NonSpaceNothing(post);
    LStripAllSpace(post);
    assert forall k :: 0 <= k < |post| ==> post[k] in line;
  }

  lemma LStripAllSpace(s: string)
    requires forall k :: 0 <= k < |s| ==> IsSpace(s[k])
    ensures LStrip(s) == []
  {
    hide IsSpace;
    var k := HeadEnd(s, 0);
    assert k == |s|;
  }

  lemma EndsInText(cur: string, p: nat)
    requires p <= |cur| && cur != [] && !IsSpace(cur[|cur| - 1]) && NonSpace(cur[p..]) == []
    ensures cur[p..] == []
  {
    hide NonSpace;
    if p < |cur| {
      var tail := cur[p..];
      assert tail[|tail| - 1] == cur[|cur| - 1];
      EndIsKept(tail);
    }
  }

  lemma EndIsKept(s: string)
    requires s != [] && !IsSpace(s[|s| - 1])
    ensures NonSpace(s) != []
  {
  }

  /** Exactly when the hits of an unterminated line take the whole line with them: nothing but white space stands
      outside them and, when there is one hit only, nothing but blanks after it. */
  ghost predicate Vanishes(line: string, hits: seq<Hit>) {
    && Placed(line, hits) && hits != [] && hits[0].end <= |line|
    && NonSpace(Deleted(line, hits)) == [] && (|hits| == 1 ==> AllBlank(line[hits[0].end..]))
  }

  lemma {:induction false} LineVanishesExactlyWhen(line: string, hits: seq<Hit>)
    requires Placed(line, hits) && '\n' !in line && line != []
    ensures StripLine(line, hits) == [] <==> Vanishes(line, hits)
    decreases |hits|
  {
    if |hits| == 1 {
      OneHitVanishes(line, hits[0]);
      assert hits == [hits[0]];
    } else if hits != [] {
      StripLineNonSpace(line, hits);
      if NonSpace(Deleted(line, hits)) == [] {
        RightmostTakesTheRest(line, hits);
        assert At(line, hits[0]) && At(line, hits[1]);
        StripHitIsStripToken(line, hits[0]);
        StripTokenUnbroken(line, hits[0].start, hits[0].end);
        var cur := StripHit(line, hits[0]);
        hide StripHit, StripToken, Deleted, NonSpace;
        assert At(cur, hits[1..][0]);
        LineVanishesExactlyWhen(cur, hits[1..]);
      }
    }
  }

  lemma OneHitVanishes(line: string, h: Hit)
    requires Placed(line, [h]) && '\n' !in line
    ensures StripLine(line, [h]) == [] <==> Vanishes(line, [h])
  {
    OneHitFacts(line, h);
    hide Deleted, StripLine, StripToken, NonSpace, Placed;
    TokenVanishesExactlyWhen(line, h.start, h.end);
    NonSpaceAppend(line[..h.start], line[h.end..]);
    BlankIsSpace(line[h.end..]);
  }

  lemma OneHitFacts(line: string, h: Hit)
    requires Placed(line, [h])
    ensures At(line, h) && h.start <= h.end <= |line|
    ensures Deleted(line, [h]) == line[..h.start] + line[h.end..]
    ensures StripLine(line, [h]) == StripToken(line, h.start, h.end)
  {
    var hits := [h];
    assert At(line, hits[0]);
    assert hits[1..] == [];
    OneHitDeleted(line, h);
    hide *;
    StripHitIsStripToken(line, h);
    OneHitLine(line, h);
  }

  lemma OneHitDeleted(line: string, h: Hit)
    requires Placed(line, [h]) && h.start <= h.end <= |line|
    ensures Deleted(line, [h]) == line[..h.start] + line[h.end..]
  {
    PlacedLeft(line, [h]);
    hide Placed;
    assert [h][1..] == [];
    assert Deleted(line[..h.start], []) == line[..h.start];
  }

  lemma BlankIsSpace(s: string)
    ensures AllBlank(s) ==> NonSpace(s) == []
  {
    if AllBlank(s) { AllSpace(s); }
  }

  /** A date that no hit overlaps survives verbatim. */
  lemma {:induction false} DateSurvives(line: string, hits: seq<Hit>, t: Hit) returns (at: nat)
    requires Placed(line, hits) && At(line, t)
    requires forall i :: 0 <= i < |hits| ==> t.end <= hits[i].start || hits[i].end <= t.start
    ensures Matches(StripLine(line, hits), t.text, at)
    decreases |hits|
  {
    at := t.start;
    if hits != [] {
      var h, rest := hits[0], hits[1..];
      var cur := StripHit(line, h);
      StillPlaced(line, hits);
      if t.end <= h.start {
        StillAt(line, h, t);
        at := DateSurvives(cur, rest, t);
      } else {
        var moved := MovedDate(line, hits, t);
        at := DateSurvives(cur, rest, moved);
      }
    }
  }

  /** A date right of the stripped hit moves with the end of the line, and stays right of the other hits. */
  lemma MovedDate(line: string, hits: seq<Hit>, t: Hit) returns (moved: Hit)
    requires Placed(line, hits) && hits != [] && At(line, t) && hits[0].end <= t.start
    ensures At(StripHit(line, hits[0]), moved) && moved.text == t.text
    ensures forall i :: 1 <= i < |hits| ==> hits[i].end <= moved.start
  {
    moved := MovedAt(line, hits[0], t);
    hide At, StripHit, Matches;
    forall i | 1 <= i < |hits| ensures hits[i].end <= moved.start {
      StaysRight(line, hits[0], t, hits[i]);
    }
  }

  lemma MovedAt(line: string, h: Hit, t: Hit) returns (moved: Hit)
    requires At(line, h) && At(line, t) && h.end <= t.start
    ensures At(StripHit(line, h), moved) && moved.text == t.text
    ensures moved.start == |StripHit(line, h)| - (|line| - t.start)
  {
    var cur := StripHit(line, h);
    hide StripToken, StripHit;
    StripHitIsStripToken(line, h);
    FirstOf(line, t);
    StripTokenKeepsSuffix(line, h.start, h.end, t.start, 0);
    moved := t.(start := |cur| - (|line| - t.start), end := |cur| - (|line| - t.start) + |t.text|);
    EndMatches(line, cur, t.text, t.start);
  }

  lemma StaysRight(line: string, h: Hit, t: Hit, left: Hit)
    requires At(line, h) && At(line, t) && At(line, left) && left.end <= h.start && h.end <= t.start
    ensures left.end <= |StripHit(line, h)| - (|line| - t.start)
  {
    hide StripToken, StripHit;
    StripHitIsStripToken(line, h);
    FirstOf(line, t);
    LastOf(line, left);
    StripTokenKeepsSuffix(line, h.start, h.end, t.start, left.end);
  }

  lemma FirstOf(line: string, t: Hit)
    requires At(line, t)
    ensures t.start < |line| && !IsSpace(line[t.start])
  {
    assert line[t.start + 0] == t.text[0];
  }

  lemma LastOf(line: string, t: Hit)
    requires At(line, t)
    ensures 0 < t.end <= |line| && !IsSpace(line[t.end - 1])
  {
    assert line[t.start + (|t.text| - 1)] == t.text[|t.text| - 1];
  }

  lemma EndMatches(line: string, cur: string, text: string, a: nat)
    requires Matches(line, text, a) && EndsWith(cur, line[a..])
    ensures Matches(cur, text, |cur| - (|line| - a))
  {
    var i := |cur| - (|line| - a);
    forall k | 0 <= k < |text| ensures cur[i + k] == text[k] {
      assert cur[i..][k] == line[a..][k] == line[a + k];
    }
  }

  // ----- the whole text -----------------------------------------------------------------------

  /** The length of the first line, its break included. */
  function LineLength(text: string): (n: nat)
    ensures n <= |text| && (text != [] ==> n > 0)
  {
    if text == [] then 0 else if text[0] == '\n' then 1 else 1 + LineLength(text[1..])
  }

  /** `splitlines(keepends=True)`, for text whose only line breaks are '\n'. */
  function SplitLines(text: string): seq<string> {
    if text == [] then [] else [text[..LineLength(text)]] + SplitLines(text[LineLength(text)..])
  }

  function Join(lines: seq<string>): string {
    if lines == [] then [] else lines[0] + Join(lines[1..])
  }

  lemma {:induction false} LineLengthOfTerminated(line: string, rest: string)
    requires Terminated(line)
    ensures LineLength(line + rest) == |line|
  {
    var text := line + rest;
    if line[0] == '\n' {
      assert text[0] == '\n';
    } else {
      assert text[1..] == line[1..] + rest;
      LineLengthOfTerminated(line[1..], rest);
    }
  }

  /** Splitting undoes joining. */
  lemma {:induction false} SplitJoin(lines: seq<string>)
    requires forall i :: 0 <= i < |lines| ==> Terminated(lines[i])
    ensures SplitLines(Join(lines)) == lines
  {
    if lines != [] {
      SplitJoin(lines[1..]);
      var text := Join(lines);
      LineLengthOfTerminated(lines[0], Join(lines[1..]));
      assert text[..|lines[0]|] == lines[0] && text[|lines[0]|..] == Join(lines[1..]);
    }
  }

  lemma {:induction false} FirstLineTerminated(text: string)
    requires text != [] && text[|text| - 1] == '\n'
    ensures Terminated(text[..LineLength(text)])
    ensures var rest := text[LineLength(text)..]; rest == [] || rest[|rest| - 1] == '\n'
  {
    if text[0] != '\n' {
      FirstLineTerminated(text[1..]);
      assert text[1..][..LineLength(text[1..])] == text[1..LineLength(text)];
      assert forall k :: 1 <= k < LineLength(text) ==> text[..LineLength(text)][k] == text[1..LineLength(text)][k - 1];
    }
  }

  /** Every line of newline-terminated text is terminated. */
  lemma {:induction false} LinesTerminated(text: string)
    requires text == [] || text[|text| - 1] == '\n'
    ensures forall i :: 0 <= i < |SplitLines(text)| ==> Terminated(SplitLines(text)[i])
    decreases |text|
  {
    if text != [] {
      FirstLineTerminated(text);
      LinesTerminated(text[LineLength(text)..]);
    }
  }

  /** Lines as `splitlines` gives them: all terminated but the last, which may have no break. */
  ghost predicate LineLike(lines: seq<string>) {
    && (forall i :: 0 <= i < |lines| - 1 ==> Terminated(lines[i]))
    && (lines != [] ==> Terminated(lines[|lines| - 1]) || '\n' !in lines[|lines| - 1])
  }

  lemma {:induction false} FirstLine(text: string)
    requires text != []
    ensures Terminated(text[..LineLength(text)]) || (LineLength(text) == |text| && '\n' !in text)
  {
    if text[0] != '\n' && |text| > 1 {
      var rest, n := text[1..], LineLength(text[1..]);
      FirstLine(rest);
      assert text == [text[0]] + rest && text[..n + 1] == [text[0]] + rest[..n];
    } else {
      assert text[0] == '\n' || text == [text[0]];
    }
  }

  lemma {:induction false} LinesAreLike(text: string)
    ensures LineLike(SplitLines(text)) && [] !in SplitLines(text)
    decreases |text|
  {
    if text != [] {
      var n := LineLength(text);
      FirstLine(text);
      LinesAreLike(text[n..]);
      hide Terminated, LineLength;
      var more := SplitLines(text[n..]);
      assert more == [] ==> text[n..] == [];
      assert text[n..] == [] ==> text[..n] == text;
      assert SplitLines(text) == [text[..n]] + more;
      assert n == |text| ==> text[n..] == [];
    }
  }

  /** Splitting undoes joining, except that an empty last line is lost. */
  lemma {:induction false} SplitJoinAny(lines: seq<string>)
    requires LineLike(lines)
    ensures SplitLines(Join(lines))
         == if lines != [] && lines[|lines| - 1] == [] then lines[..|lines| - 1] else lines
  {
    if lines == [] {
    } else if |lines| == 1 && !Terminated(lines[0]) {
      assert Join(lines) == lines[0] + Join([]) == lines[0];
      if lines[0] != [] {
        OneLine(lines[0]);
      }
    } else {
      var first, rest := lines[0], lines[1..];
      var text := Join(lines);
      LineLengthOfTerminated(first, Join(rest));
      hide LineLength;
      SplitJoinAny(rest);
      assert text[..|first|] == first && text[|first|..] == Join(rest);
      assert SplitLines(text) == [first] + SplitLines(Join(rest));
    }
  }

  /** The untagged hits of line `n`, in the order found. */
  function OnLine(hits: seq<Hit>, n: nat): seq<Hit> {
    if hits == [] then []
    else
      var h := hits[|hits| - 1];
      OnLine(hits[..|hits| - 1], n) + (if !h.tagged && h.lineNo == n then [h] else [])
  }

  const LEFTWARD: Hit -> int := (h: Hit) => -(h.start as int)

  /** `sorted(key=col_start, reverse=True)`. */
  function RightFirst(hits: seq<Hit>): seq<Hit> {
    SortBy(hits, LEFTWARD)
  }

  function StrippedLines(lines: seq<string>, hits: seq<Hit>): (r: seq<string>)
    ensures |r| == |lines|
    ensures forall i :: 0 <= i < |lines| ==> r[i] == StripLine(lines[i], RightFirst(OnLine(hits, i + 1)))
  {
    seq(|lines|, i requires 0 <= i < |lines| => StripLine(lines[i], RightFirst(OnLine(hits, i + 1))))
  }

  method StripOneHit(line: string, h: Hit) returns (r: string)
    ensures r == StripHit(line, h)
  {
    hide Find, StripToken;
    var idx := Find(line, h.text, LookFrom(h));
    if idx < 0 {
      return line;
    }
    r := StripDateToken(line, idx, idx + |h.text|);
  }

  method StripOneLine(line: string, hits: seq<Hit>) returns (r: string)
    ensures r == StripLine(line, RightFirst(hits))
  {
    r := line;
    var sorted := RightFirst(hits);
    assert sorted[0..] == sorted;
    hide *;
    for k := 0 to |sorted|
      invariant StripLine(line, sorted) == StripLine(r, sorted[k..])
    {
      NextHit(r, sorted, k);
      r := StripOneHit(r, sorted[k]);
    }
    NoHits(r);
  }

  lemma NextHit(line: string, hits: seq<Hit>, k: nat)
    requires k < |hits|
    ensures StripLine(line, hits[k..]) == StripLine(StripHit(line, hits[k]), hits[k + 1..])
  {
    assert hits[k..][1..] == hits[k + 1..];
  }

  lemma NoHits(line: string)
    ensures StripLine(line, []) == line
  {
  }

  /** The lines named in `done` are stripped, the others as they were. */
  ghost predicate PartlyStripped(lines: seq<string>, input: seq<string>, fixed: seq<string>, done: seq<nat>) {
    && |lines| == |input| == |fixed|
    && forall i :: 0 <= i < |lines| ==> lines[i] == if i + 1 in done then fixed[i] else input[i]
  }

  lemma OneMoreStripped(lines: seq<string>, input: seq<string>, fixed: seq<string>, done: seq<nat>, n: nat)
    requires PartlyStripped(lines, input, fixed, done) && n !in done && 1 <= n <= |lines|
    ensures lines[n - 1] == input[n - 1]
    ensures PartlyStripped(lines[n - 1 := fixed[n - 1]], input, fixed, done + [n])
  {
    assert n - 1 + 1 !in done;
  }

  lemma AllStripped(lines: seq<string>, input: seq<string>, hits: seq<Hit>, order: seq<nat>, byLine: map<nat, seq<Hit>>)
    requires Grouped(hits, order, byLine) && PartlyStripped(lines, input, StrippedLines(input, hits), order)
    ensures lines == StrippedLines(input, hits)
  {
    hide StripLine, OnLine, RightFirst;
    var fixed := StrippedLines(input, hits);
    forall i | 0 <= i < |lines| ensures lines[i] == fixed[i] {
      if i + 1 !in order {
        assert OnLine(hits, i + 1) == [];
        Untouched(input[i]);
      }
    }
  }

  /** The next line of the grouping is not done yet, exists, and has the hits of the whole list on it. */
  lemma NextLine(hits: seq<Hit>, order: seq<nat>, byLine: map<nat, seq<Hit>>, k: nat, count: nat)
    requires Grouped(hits, order, byLine) && k < |order|
    requires forall h :: h in hits ==> 1 <= h.lineNo <= count
    ensures var n := order[k];
            && n in byLine && byLine[n] == OnLine(hits, n) && n !in order[..k] && 1 <= n <= count
            && order[..k + 1] == order[..k] + [n]
  {
    var n := order[k];
    OnLineIs(hits, n);
    hide OnLine;
    assert n in order && byLine[n][0] in byLine[n];
  }

  lemma StrippedAt(lines: seq<string>, hits: seq<Hit>, n: nat)
    requires 1 <= n <= |lines|
    ensures StrippedLines(lines, hits)[n - 1] == StripLine(lines[n - 1], RightFirst(OnLine(hits, n)))
  {
    hide StripLine, OnLine, RightFirst;
  }

  method StripUntagged(text: string, hits: seq<Hit>) returns (r: string)
    requires forall h :: h in hits ==> 1 <= h.lineNo <= |SplitLines(text)|
    ensures r == Join(StrippedLines(SplitLines(text), hits))
  {
    var lines := SplitLines(text);
    var order, byLine := GroupByLine(hits);
    ghost var input := lines;
    ghost var fixed := StrippedLines(input, hits);
    assert PartlyStripped(lines, input, fixed, order[..0]);
    hide *;
    for k := 0 to |order|
      invariant |lines| == |input| && PartlyStripped(lines, input, fixed, order[..k])
    {
      var n := order[k];
      NextLine(hits, order, byLine, k, |input|);
      OneMoreStripped(lines, input, fixed, order[..k], n);
      StrippedAt(input, hits, n);
      var stripped := StripOneLine(lines[n - 1], byLine[n]);
      lines := lines[n - 1 := stripped];
    }
    assert order[..|order|] == order;
    AllStripped(lines, input, hits, order, byLine);
    r := Join(lines);
  }

  lemma Untouched(line: string)
    ensures StripLine(line, RightFirst([])) == line
  {
  }

  ghost predicate Grouped(hits: seq<Hit>, order: seq<nat>, byLine: map<nat, seq<Hit>>) {
    && (forall n :: n in byLine <==> n in order)
    && (forall n :: n in order ==> byLine[n] == OnLine(hits, n) && byLine[n] != [])
    && (forall n :: n !in order ==> OnLine(hits, n) == [])
    && (forall i, j :: 0 <= i < j < |order| ==> order[i] != order[j])
  }

  /** `by_line`: the lines with untagged hits, in order of appearance, each with its hits in order. */
  method GroupByLine(hits: seq<Hit>) returns (order: seq<nat>, byLine: map<nat, seq<Hit>>)
    ensures Grouped(hits, order, byLine)
  {
    order, byLine := [], map[];
    for k := 0 to |hits|
      invariant Grouped(hits[..k], order, byLine)
    {
      var h := hits[k];
      GroupedStep(hits, k, order, byLine);
      if h.tagged {
        continue;
      }
      if h.lineNo in byLine {
        byLine := byLine[h.lineNo := byLine[h.lineNo] + [h]];
      } else {
        order, byLine := order + [h.lineNo], byLine[h.lineNo := [h]];
      }
    }
    assert hits[..|hits|] == hits;
  }

  lemma OnLineStep(hits: seq<Hit>, k: nat, n: nat)
    requires k < |hits|
    ensures OnLine(hits[..k + 1], n)
         == OnLine(hits[..k], n) + (if !hits[k].tagged && hits[k].lineNo == n then [hits[k]] else [])
  {
    assert hits[..k + 1][..k] == hits[..k];
  }

  lemma GroupedStep(hits: seq<Hit>, k: nat, order: seq<nat>, byLine: map<nat, seq<Hit>>)
    requires k < |hits| && Grouped(hits[..k], order, byLine)
    ensures var h := hits[k];
            if h.tagged then Grouped(hits[..k + 1], order, byLine)
            else if h.lineNo in byLine then Grouped(hits[..k + 1], order, byLine[h.lineNo := byLine[h.lineNo] + [h]])
            else Grouped(hits[..k + 1], order + [h.lineNo], byLine[h.lineNo := [h]])
  {
    hide OnLine;
    forall n ensures hits[k].tagged || n != hits[k].lineNo ==> OnLine(hits[..k + 1], n) == OnLine(hits[..k], n) {
      OnLineStep(hits, k, n);
    }
    OnLineStep(hits, k, hits[k].lineNo);
    if !hits[k].tagged && hits[k].lineNo !in byLine {
      NewLine(hits, k, order, byLine);
    }
  }

  lemma NewLine(hits: seq<Hit>, k: nat, order: seq<nat>, byLine: map<nat, seq<Hit>>)
    requires k < |hits| && Grouped(hits[..k], order, byLine) && hits[k].lineNo !in byLine
    requires forall n :: n != hits[k].lineNo ==> OnLine(hits[..k + 1], n) == OnLine(hits[..k], n)
    requires OnLine(hits[..k + 1], hits[k].lineNo) == OnLine(hits[..k], hits[k].lineNo) + [hits[k]]
    ensures Grouped(hits[..k + 1], order + [hits[k].lineNo], byLine[hits[k].lineNo := [hits[k]]])
  {
    hide OnLine;
    assert OnLine(hits[..k], hits[k].lineNo) == [];
  }

  lemma {:induction false} OnLineIs(hits: seq<Hit>, n: nat)
    ensures forall h :: h in OnLine(hits, n) ==> h in hits && h.lineNo == n && !h.tagged
  {
    if hits != [] {
      OnLineIs(hits[..|hits| - 1], n);
    }
  }

  predicate Apart(a: Hit, b: Hit) {
    a.end <= b.start || b.end <= a.start
  }

  /** Every hit is a date standing at its columns of its line, and the hits of one line do not overlap. */
  ghost predicate WellFound(lines: seq<string>, hits: seq<Hit>) {
    && (forall i :: 0 <= i < |hits| ==> 1 <= hits[i].lineNo <= |lines| && At(lines[hits[i].lineNo - 1], hits[i]))
    && (forall i, j :: 0 <= i < j < |hits| && hits[i].lineNo == hits[j].lineNo ==> Apart(hits[i], hits[j]))
  }

  /** Dates of line `n`, distinct and apart. */
  ghost predicate AllApart(lines: seq<string>, n: nat, mine: seq<Hit>) {
    && Distinct(mine)
    && (forall a, b :: a in mine && b in mine && a != b ==> Apart(a, b))
    && (forall h :: h in mine ==> 1 <= h.lineNo == n <= |lines| && At(lines[n - 1], h))
  }

  ghost predicate AllApartFrom(mine: seq<Hit>, last: Hit) {
    forall h :: h in mine ==> h != last && Apart(h, last)
  }

  lemma AppendApart(lines: seq<string>, n: nat, mine: seq<Hit>, last: Hit)
    requires AllApart(lines, n, mine) && 1 <= last.lineNo == n <= |lines| && At(lines[n - 1], last)
    requires AllApartFrom(mine, last)
    ensures AllApart(lines, n, mine + [last])
  {
    hide At, Apart;
    var more := mine + [last];
    forall h | h in mine ensures Apart(last, h) {
      ApartIsSymmetric(h, last);
    }
    forall h | h in more ensures h in mine || h == last {}
    forall i, j | 0 <= i < j < |more| ensures more[i] != more[j] {
      assert more[i] == mine[i] && mine[i] in mine;
      if j < |mine| { assert more[j] == mine[j]; }
    }
  }

  lemma ApartIsSymmetric(a: Hit, b: Hit)
    ensures Apart(a, b) <==> Apart(b, a)
  {
  }

  /** The untagged hits of line `n` are dates of it, distinct and apart. */
  lemma {:induction false} OnLineApart(lines: seq<string>, hits: seq<Hit>, n: nat)
    requires WellFound(lines, hits)
    ensures AllApart(lines, n, OnLine(hits, n))
  {
    hide At, Apart;
    if hits != [] {
      var init, last := hits[..|hits| - 1], hits[|hits| - 1];
      OnLineApart(lines, init, n);
      hide AllApart;
      if !last.tagged && last.lineNo == n {
        ApartFromLast(lines, hits, n);
        AppendApart(lines, n, OnLine(init, n), last);
      } else {
        assert OnLine(init, n) + [] == OnLine(init, n);
      }
    }
  }

  lemma ApartFromLast(lines: seq<string>, hits: seq<Hit>, n: nat)
    requires WellFound(lines, hits) && hits != []
    requires var last := hits[|hits| - 1]; !last.tagged && last.lineNo == n
    ensures var last := hits[|hits| - 1];
            && 1 <= n <= |lines| && At(lines[n - 1], last)
            && AllApartFrom(OnLine(hits[..|hits| - 1], n), last)
  {
    hide At, Apart;
    var init, last := hits[..|hits| - 1], hits[|hits| - 1];
    OnLineIs(init, n);
    NotApartFromItself(lines[n - 1], last);
    hide OnLine;
    forall h | h in OnLine(init, n) ensures h != last && Apart(h, last) {
      var i :| 0 <= i < |init| && init[i] == h;
      assert Apart(hits[i], hits[|hits| - 1]);
    }
  }

  lemma NotApartFromItself(line: string, h: Hit)
    requires At(line, h)
    ensures !Apart(h, h)
  {
  }

  /** Sorted by column from the right, distinct hits that are apart are placed. */
  lemma RightFirstIsPlaced(lines: seq<string>, n: nat, mine: seq<Hit>)
    requires 1 <= n <= |lines| && AllApart(lines, n, mine)
    ensures Placed(lines[n - 1], RightFirst(mine))
  {
    var line, sorted := lines[n - 1], RightFirst(mine);
    RightFirstHas(mine);
    hide RightFirst, At, Apart;
    forall i, j | 0 <= i < j < |sorted| ensures sorted[j].end <= sorted[i].start {
      RightFirstPair(mine, i, j);
      RightOneFirst(line, sorted[i], sorted[j]);
    }
    forall i | 0 <= i < |sorted| ensures At(line, sorted[i]) {
      assert sorted[i] in mine;
    }
  }

  lemma RightFirstHas(mine: seq<Hit>)
    ensures forall i :: 0 <= i < |RightFirst(mine)| ==> RightFirst(mine)[i] in mine
  {
    SortByCorrect(mine, LEFTWARD);
    hide SortBy;
  }

  lemma RightFirstPair(mine: seq<Hit>, i: nat, j: nat)
    requires Distinct(mine) && i < j < |RightFirst(mine)|
    ensures var a, b := RightFirst(mine)[i], RightFirst(mine)[j];
            a in mine && b in mine && a != b && LEFTWARD(a) <= LEFTWARD(b)
  {
    SortByCorrect(mine, LEFTWARD);
    SortByDistinct(mine, LEFTWARD);
    hide SortBy;
  }

  /** Of two hits apart, the one that starts further to the right starts where the other has ended. */
  lemma RightOneFirst(line: string, a: Hit, b: Hit)
    requires At(line, a) && At(line, b) && Apart(a, b) && LEFTWARD(a) <= LEFTWARD(b)
    ensures b.end <= a.start
  {
    NotApartFromItself(line, a);
    hide At;
  }

  lemma LineIsPlaced(lines: seq<string>, hits: seq<Hit>, i: nat)
    requires WellFound(lines, hits) && i < |lines|
    ensures Placed(lines[i], RightFirst(OnLine(hits, i + 1)))
  {
    OnLineApart(lines, hits, i + 1);
    hide *;
    RightFirstIsPlaced(lines, i + 1, OnLine(hits, i + 1));
  }

  /** The last line is lost: it has no break, and its untagged dates take the rest of it with them. */
  ghost predicate LastLineVanishes(lines: seq<string>, hits: seq<Hit>) {
    && lines != [] && '\n' !in lines[|lines| - 1]
    && Vanishes(lines[|lines| - 1], RightFirst(OnLine(hits, |lines|)))
  }

  lemma StrippedLineLike(lines: seq<string>, hits: seq<Hit>)
    requires LineLike(lines) && [] !in lines && WellFound(lines, hits)
    ensures LineLike(StrippedLines(lines, hits))
    ensures forall i :: 0 <= i < |lines| && Terminated(lines[i]) ==> Terminated(StrippedLines(lines, hits)[i])
    ensures lines != [] ==>
              (StrippedLines(lines, hits)[|lines| - 1] == [] <==> LastLineVanishes(lines, hits))
  {
    var stripped := StrippedLines(lines, hits);
    assert forall i :: 0 <= i < |lines| ==> stripped[i] == StripLine(lines[i], RightFirst(OnLine(hits, i + 1)));
    hide SplitLines, StripLine, OnLine, RightFirst, Placed, Vanishes, StrippedLines;
    forall i | 0 <= i < |lines| && Terminated(lines[i]) ensures Terminated(stripped[i]) {
      LineIsPlaced(lines, hits, i);
      StripLineTerminated(lines[i], RightFirst(OnLine(hits, i + 1)));
    }
    if lines != [] {
      var last := |lines| - 1;
      LineIsPlaced(lines, hits, last);
      TerminatedHasBreak(lines[last]);
      TerminatedHasBreak(stripped[last]);
      if '\n' !in lines[last] {
        assert lines[last] in lines;
        StripLineUnbroken(lines[last], RightFirst(OnLine(hits, last + 1)));
        LineVanishesExactlyWhen(lines[last], RightFirst(OnLine(hits, last + 1)));
      }
      hide Terminated;
    }
  }

  lemma TerminatedHasBreak(line: string)
    ensures Terminated(line) ==> line != [] && '\n' in line
  {
  }

  /** The stripped lines one for one, without the last exactly when that one vanishes. */
  ghost function KeptLines(lines: seq<string>, hits: seq<Hit>): seq<string> {
    if LastLineVanishes(lines, hits) then StrippedLines(lines, hits)[..|lines| - 1] else StrippedLines(lines, hits)
  }

  /** What the stripped document reads as, for any text. */
  lemma LinesAreKeptExactlyUnlessLastVanishes(text: string, hits: seq<Hit>)
    requires WellFound(SplitLines(text), hits)
    ensures SplitLines(Join(StrippedLines(SplitLines(text), hits))) == KeptLines(SplitLines(text), hits)
  {
    var lines := SplitLines(text);
    hide SplitLines, Join, LineLike, WellFound, StrippedLines, Vanishes;
    LinesAreLike(text);
    StrippedLineLike(lines, hits);
    SplitJoinAny(StrippedLines(lines, hits));
  }

  /** The whole document: stripping keeps the lines one for one, but for a last line that vanishes; each is, up to
      white space, its old self with exactly its untagged dates cut out, and has the words of its old self with a
      blank for each of them; and a line without one is unchanged. */
  lemma StripConserves(text: string, hits: seq<Hit>)
    requires WellFound(SplitLines(text), hits)
    ensures var lines, lines' := SplitLines(text), SplitLines(Join(StrippedLines(SplitLines(text), hits)));
            && |lines'| == |lines| - (if LastLineVanishes(lines, hits) then 1 else 0)
            && forall i :: 0 <= i < |lines'| ==> Conserved(lines[i], lines'[i], OnLine(hits, i + 1))
  {
    var lines := SplitLines(text);
    assert LastLineVanishes(lines, hits) ==> lines != [];
    hide *;
    LinesAreKeptExactlyUnlessLastVanishes(text, hits);
    KeptAre(lines, hits);
    forall i | 0 <= i < |lines|
      ensures Conserved(lines[i], StrippedLines(lines, hits)[i], OnLine(hits, i + 1))
    {
      LineConserves(lines, hits, i);
    }
  }

  lemma KeptAre(lines: seq<string>, hits: seq<Hit>)
    ensures var kept := KeptLines(lines, hits);
            && |kept| == |lines| - (if LastLineVanishes(lines, hits) then 1 else 0)
            && forall i :: 0 <= i < |kept| ==> kept[i] == StrippedLines(lines, hits)[i]
  {
    hide StrippedLines, Vanishes;
  }

  /** Up to white space a line without exactly its own dates, word by word with a blank for each of them, and the very
      line when it has none. */
  ghost predicate Conserved(line: string, line': string, mine: seq<Hit>) {
    && Placed(line, RightFirst(mine))
    && NonSpace(line') == NonSpace(Deleted(line, RightFirst(mine)))
    && Words(line') == Words(Blanked(line, RightFirst(mine)))
    && (mine == [] ==> line' == line)
  }

  lemma LineConserves(lines: seq<string>, hits: seq<Hit>, i: nat)
    requires WellFound(lines, hits) && i < |lines|
    ensures Conserved(lines[i], StrippedLines(lines, hits)[i], OnLine(hits, i + 1))
  {
    var mine := OnLine(hits, i + 1);
    assert StrippedLines(lines, hits)[i] == StripLine(lines[i], RightFirst(mine));
    hide WellFound, OnLine, Placed, RightFirst, StripLine, Deleted, Blanked, NonSpace, Words, StrippedLines;
    LineIsPlaced(lines, hits, i);
    StripLineNonSpace(lines[i], RightFirst(mine));
    StripLineWords(lines[i], RightFirst(mine));
    Untouched(lines[i]);
  }

  /** Newline-terminated text loses no line. */
  lemma TerminatedTextKeepsItsLines(text: string, hits: seq<Hit>)
    requires text == [] || text[|text| - 1] == '\n'
    ensures !LastLineVanishes(SplitLines(text), hits)
  {
    LinesTerminated(text);
    var lines := SplitLines(text);
    if lines != [] {
      TerminatedHasBreak(lines[|lines| - 1]);
    }
    hide Vanishes, Terminated, SplitLines;
  }

  ghost predicate Occurs(line: string, text: string) {
    exists at: nat :: Matches(line, text, at)
  }

  lemma TaggedIsApart(lines: seq<string>, hits: seq<Hit>, k: nat, h: Hit)
    requires WellFound(lines, hits) && k < |hits| && hits[k].tagged && h in OnLine(hits, hits[k].lineNo)
    ensures Apart(h, hits[k])
  {
    hide At, OnLine;
    OnLineIs(hits, hits[k].lineNo);
    var n :| 0 <= n < |hits| && hits[n] == h;
    assert if n < k then Apart(hits[n], hits[k]) else Apart(hits[k], hits[n]);
  }

  lemma SameHits(mine: seq<Hit>, j: nat)
    requires j < |RightFirst(mine)|
    ensures RightFirst(mine)[j] in mine
  {
    SortByCorrect(mine, LEFTWARD);
    hide SortBy;
    assert RightFirst(mine)[j] in RightFirst(mine);
  }

  lemma TaggedSurvivesOnLine(lines: seq<string>, hits: seq<Hit>, k: nat)
    requires WellFound(lines, hits) && k < |hits| && hits[k].tagged
    ensures var i := hits[k].lineNo - 1; Occurs(StripLine(lines[i], RightFirst(OnLine(hits, i + 1))), hits[k].text)
  {
    var t, i := hits[k], hits[k].lineNo - 1;
    var sorted := RightFirst(OnLine(hits, i + 1));
    assert At(lines[i], t);
    hide OnLine, RightFirst, At, Matches, StripLine, Placed, WellFound;
    LineIsPlaced(lines, hits, i);
    forall j | 0 <= j < |sorted| ensures Apart(sorted[j], t) {
      SameHits(OnLine(hits, i + 1), j);
      TaggedIsApart(lines, hits, k, sorted[j]);
    }
    var at := DateSurvives(lines[i], sorted, t);
  }

  /** A date is still in its own line. */
  ghost predicate Survives(lines: seq<string>, h: Hit) {
    1 <= h.lineNo <= |lines| && Occurs(lines[h.lineNo - 1], h.text)
  }

  /** And every tagged date survives verbatim in its line, in any text. */
  lemma TaggedDateSurvives(text: string, hits: seq<Hit>, k: nat)
    requires WellFound(SplitLines(text), hits) && k < |hits| && hits[k].tagged
    ensures Survives(SplitLines(Join(StrippedLines(SplitLines(text), hits))), hits[k])
  {
    hide *;
    LinesAreLike(text);
    LinesAreKeptExactlyUnlessLastVanishes(text, hits);
    TaggedIsKept(SplitLines(text), hits, k);
  }

  lemma TaggedIsKept(lines: seq<string>, hits: seq<Hit>, k: nat)
    requires LineLike(lines) && [] !in lines && WellFound(lines, hits) && k < |hits| && hits[k].tagged
    ensures Survives(KeptLines(lines, hits), hits[k])
  {
    hide LineLike, WellFound, StrippedLines, LastLineVanishes, Occurs, StripLine, OnLine, RightFirst;
    TaggedFacts(lines, hits, k);
    TaggedSurvivesOnLine(lines, hits, k);
    StrippedLineLike(lines, hits);
    OccursInSome(StrippedLines(lines, hits)[hits[k].lineNo - 1], hits[k].text);
  }

  lemma TaggedFacts(lines: seq<string>, hits: seq<Hit>, k: nat)
    requires WellFound(lines, hits) && k < |hits|
    ensures var n := hits[k].lineNo;
            && 1 <= n <= |lines| && hits[k].text != []
            && StrippedLines(lines, hits)[n - 1] == StripLine(lines[n - 1], RightFirst(OnLine(hits, n)))
  {
    assert At(lines[hits[k].lineNo - 1], hits[k]);
    hide StripLine, OnLine, RightFirst;
  }

  lemma OccursInSome(line: string, text: string)
    requires Occurs(line, text) && text != []
    ensures line != []
  {
  }

  lemma {:induction false} LineLengthWithoutBreak(text: string)
    requires '\n' !in text
    ensures LineLength(text) == |text|
  {
    if text != [] {
      assert text[0] in text;
      LineLengthWithoutBreak(text[1..]);
    }
  }

  lemma OneLine(text: string)
    requires text != [] && '\n' !in text
    ensures SplitLines(text) == [text]
  {
    LineLengthWithoutBreak(text);
    hide LineLength;
    assert text[..|text|] == text && text[|text|..] == [];
    assert [text] + [] == [text];
  }

  lemma DateAloneVanishes(date: string, hit: Hit)
    requires At(date, hit) && hit.start == 0 && hit.end == |date| && !hit.tagged && hit.lineNo == 1
    ensures StripLine(date, RightFirst(OnLine([hit], 1))) == []
  {
    hide *;
    OneOnLine(hit);
    SortOne(hit, LEFTWARD);
    StripHitIsStripToken(date, hit);
    NothingAround(date);
    OneHitLine(date, hit);
  }

  lemma OneOnLine(hit: Hit)
    requires !hit.tagged && hit.lineNo == 1
    ensures RightFirst(OnLine([hit], 1)) == SortBy([hit], LEFTWARD)
  {
    assert [hit][..0] == [];
    assert OnLine([hit], 1) == [hit];
  }

  lemma NothingAround(date: string)
    ensures StripToken(date, 0, |date|) == []
  {
  }

  lemma OneHitLine(line: string, hit: Hit)
    ensures StripLine(line, [hit]) == StripHit(line, hit)
  {
    hide StripHit;
    assert [hit][1..] == [];
  }

  lemma OneHitFound(date: string, hit: Hit)
    requires At(date, hit) && hit.lineNo == 1
    ensures WellFound([date], [hit])
  {
    hide At;
  }

  lemma EmptyLineIsNothing()
    ensures SplitLines(Join([[]])) == []
  {
    assert Join([[]]) == [];
  }

  /** Text that does not end in a line break can lose its last line: a date alone on it leaves nothing. */
  lemma UnterminatedDateVanishes(date: string)
    requires IsDate(date)
    ensures var hit := Hit(1, 0, |date|, date, false);
            && SplitLines(date) == [date] && WellFound([date], [hit])
            && SplitLines(Join(StrippedLines([date], [hit]))) == []
  {
    var hit := Hit(1, 0, |date|, date, false);
    hide *;
    DateAlone(date, hit);
    OneLine(date);
    OneHitFound(date, hit);
    DateAloneVanishes(date, hit);
    OneStrippedLine(date, hit);
    EmptyLineIsNothing();
  }

  lemma DateAlone(date: string, hit: Hit)
    requires IsDate(date) && hit == Hit(1, 0, |date|, date, false)
    ensures date != [] && '\n' !in date && At(date, hit)
  {
  }

  lemma OneStrippedLine(date: string, hit: Hit)
    ensures StrippedLines([date], [hit]) == [StripLine(date, RightFirst(OnLine([hit], 1)))]
  {
    hide StripLine, RightFirst, OnLine;
  }
}
