/** Origin extraction of git/git.go, from the `url` value of the
    `remote "origin"` section onward: the first match of
    `(?:/|:)(\w+/\w+)\.git` and its group, written as a scanner. */
module Git {
  import opened Errors

  const ErrOriginDNE: Error := Message("origin url does not exist")

  /** `\w`: ASCII letters, digits and underscore. */
  predicate IsWordChar(c: char) {
    ('0' <= c <= '9') || ('A' <= c <= 'Z') || ('a' <= c <= 'z') || c == '_'
  }

  predicate IsDelimiter(c: char) {
    c == '/' || c == ':'
  }

  /** Every character of `s[lo..hi]` is a word character. */
  predicate WordsBetween(s: string, lo: nat, hi: nat)
    requires lo <= hi <= |s|
  {
    forall k :: lo <= k < hi ==> IsWordChar(s[k])
  }

  /** The regular expression matched at position `i`: a delimiter at `i`, a
      non-empty word run up to the `/` at `j`, a non-empty word run up to `k`,
      and `.git` at `k`. The group is `s[i + 1..k]`. */
  ghost predicate PatternAt(s: string, i: nat, j: nat, k: nat) {
    && i + 1 < j && j + 1 < k && k + 4 <= |s|
    && IsDelimiter(s[i])
    && WordsBetween(s, i + 1, j)
    && s[j] == '/'
    && WordsBetween(s, j + 1, k)
    && s[k..k + 4] == ".git"
  }

  /** The leftmost match: no match starts before `i`. */
  ghost predicate Leftmost(s: string, i: nat, j: nat, k: nat) {
    && PatternAt(s, i, j, k)
    && forall i': nat, j': nat, k': nat :: i' < i ==> !PatternAt(s, i', j', k')
  }

  /** The end of the maximal run of word characters starting at `i`. */
  function WordRunEnd(s: string, i: nat): (j: nat)
    requires i <= |s|
    ensures i <= j <= |s|
    ensures WordsBetween(s, i, j)
    ensures j < |s| ==> !IsWordChar(s[j])
    decreases |s| - i
  {
    if i < |s| && IsWordChar(s[i]) then WordRunEnd(s, i + 1) else i
  }

  /** The match at position `i`, as the end `k` of its group. Because the
      word runs cannot contain `/` or `.`, the match at `i` is unique. */
  function MatchAt(s: string, i: nat): (r: Option<nat>)
    requires i < |s|
    ensures r.Some? ==> PatternAt(s, i, WordRunEnd(s, i + 1), r.value)
  {
    if !IsDelimiter(s[i]) then None
    else
      var j := WordRunEnd(s, i + 1);
      if j == i + 1 || j == |s| || s[j] != '/' then None
      else
        var k := WordRunEnd(s, j + 1);
        if k == j + 1 || k + 4 > |s| || s[k..k + 4] != ".git" then None
        else Some(k)
  }

  /** A maximal word run ends at the first non-word character. */
  lemma {:induction false} WordRunEndAt(s: string, lo: nat, hi: nat)
    requires lo <= hi < |s| && WordsBetween(s, lo, hi) && !IsWordChar(s[hi])
    ensures WordRunEnd(s, lo) == hi
    decreases hi - lo
  {
    if lo < hi {
      WordRunEndAt(s, lo + 1, hi);
    }
  }

  /** The scanner finds every match of the pattern: whenever the regular
      expression matches at `i`, `MatchAt` reports that match. */
  lemma {:induction false} MatchAtComplete(s: string, i: nat, j: nat, k: nat)
    requires PatternAt(s, i, j, k)
    ensures MatchAt(s, i) == Some(k)
  {
    WordRunEndAt(s, i + 1, j);
    WordRunEndAt(s, j + 1, k);
  }

  /** The first position at or after `from` where the pattern matches. */
  function FirstMatch(s: string, from: nat): (r: Option<nat>)
    requires from <= |s|
    ensures r.Some? ==> from <= r.value < |s| && MatchAt(s, r.value).Some?
    ensures r.Some? ==> forall i :: from <= i < r.value ==> MatchAt(s, i).None?
    ensures r.None? ==> forall i :: from <= i < |s| ==> MatchAt(s, i).None?
    decreases |s| - from
  {
    if from == |s| then None
    else if MatchAt(s, from).Some? then Some(from)
    else FirstMatch(s, from + 1)
  }

  /** `getOrigin` from the url onward: an empty url, or one where the pattern
      matches nowhere, is `ErrOriginDNE`; otherwise the group of the first
      match. */
  function GetOrigin(url: string): (r: Result<string>)
    ensures r.Failure? ==> r.error == ErrOriginDNE
    ensures url == "" ==> r.Failure?
  {
    if url == "" then Failure(ErrOriginDNE)
    else match FirstMatch(url, 0)
      case None => Failure(ErrOriginDNE)
      case Some(i) => Success(url[i + 1..MatchAt(url, i).value])
  }

  /** A successful result is the group of the leftmost match, and the group
      of the leftmost match is the result. */
  lemma {:induction false} GetOriginIsLeftmostMatch(url: string)
    ensures GetOrigin(url).Success? ==>
      exists i: nat, j: nat, k: nat :: Leftmost(url, i, j, k) && GetOrigin(url).value == url[i + 1..k]
    ensures forall i: nat, j: nat, k: nat :: Leftmost(url, i, j, k) ==> GetOrigin(url) == Success(url[i + 1..k])
  {
    if GetOrigin(url).Success? {
      var i := FirstMatch(url, 0).value;
      var j, k := WordRunEnd(url, i + 1), MatchAt(url, i).value;
      assert PatternAt(url, i, j, k);
      forall i': nat, j': nat, k': nat | i' < i
        ensures !PatternAt(url, i', j', k')
      {
        if PatternAt(url, i', j', k') {
          MatchAtComplete(url, i', j', k');
        }
      }
      assert Leftmost(url, i, j, k);
    }
    forall i: nat, j: nat, k: nat | Leftmost(url, i, j, k)
      ensures GetOrigin(url) == Success(url[i + 1..k])
    {
      MatchAtComplete(url, i, j, k);
      var f := FirstMatch(url, 0);
      assert f.Some?;
      assert f.value == i;
    }
  }

  /** The url yields `ErrOriginDNE` exactly when it is empty or the pattern
      matches nowhere in it. */
  lemma {:induction false} GetOriginFailure(url: string)
    ensures GetOrigin(url).Failure? <==> url == "" || forall i: nat, j: nat, k: nat :: !PatternAt(url, i, j, k)
  {
    if url != "" && GetOrigin(url).Failure? {
      forall i: nat, j: nat, k: nat | PatternAt(url, i, j, k)
        ensures false
      {
        MatchAtComplete(url, i, j, k);
      }
    }
    if GetOrigin(url).Success? {
      var i := FirstMatch(url, 0).value;
      assert PatternAt(url, i, WordRunEnd(url, i + 1), MatchAt(url, i).value);
    }
  }

  /** `owner/repo`: word characters with a single `/` at `m`, with a word
      character on each side. */
  predicate OwnerRepoAt(r: string, m: nat) {
    && 0 < m < |r| - 1
    && r[m] == '/'
    && forall c :: 0 <= c < |r| && c != m ==> IsWordChar(r[c])
  }

  /** A successful result has the `owner/repo` shape, stands right after a
      `/` or `:` in the url and right before a `.git` (which need not end the
      url). */
  lemma {:induction false} GetOriginShape(url: string)
    requires GetOrigin(url).Success?
    ensures exists m :: OwnerRepoAt(GetOrigin(url).value, m)
    ensures exists i ::
      && 0 <= i && i + 1 + |GetOrigin(url).value| + 4 <= |url|
      && IsDelimiter(url[i])
      && url[i + 1..i + 1 + |GetOrigin(url).value|] == GetOrigin(url).value
      && url[i + 1 + |GetOrigin(url).value|..i + 5 + |GetOrigin(url).value|] == ".git"
  {
    var r := GetOrigin(url).value;
    var i := FirstMatch(url, 0).value;
    var j, k := WordRunEnd(url, i + 1), MatchAt(url, i).value;
    assert PatternAt(url, i, j, k);
    assert r == url[i + 1..k];
    var m := j - (i + 1);
    forall c | 0 <= c < |r| && c != m
      ensures IsWordChar(r[c])
    {
      assert r[c] == url[i + 1 + c];
    }
    assert OwnerRepoAt(r, m);
    assert i + 1 + |r| == k;
  }

  /** The url of the repository's own test. */
  lemma GitlabExample(url: string)
    requires url == "git@gitlab.com:diamondburned/meistercli.git"
    ensures GetOrigin(url) == Success("diamondburned/meistercli")
  {
    GitlabPattern(url);
    GitlabNoEarlierDelimiter(url);
    assert Leftmost(url, 14, 28, 39);
    GetOriginIsLeftmostMatch(url);
    assert GetOrigin(url) == Success(url[15..39]);
    GitlabGroup(url);
  }

  lemma GitlabGroup(url: string)
    requires url == "git@gitlab.com:diamondburned/meistercli.git"
    ensures url[15..39] == "diamondburned/meistercli"
  {
    var host, group, suffix := "git@gitlab.com:", "diamondburned/meistercli", ".git";
    assert url == host + group + suffix;
    assert url[15..39] == (host + group + suffix)[|host|..|host| + |group|];
  }

  lemma GitlabPattern(url: string)
    requires url == "git@gitlab.com:diamondburned/meistercli.git"
    ensures PatternAt(url, 14, 28, 39)
  {
    assert url[14] == ':' && url[28] == '/';
    assert url[39..43] == ".git";
    assert WordsBetween(url, 15, 28);
    assert WordsBetween(url, 29, 39);
  }

  lemma GitlabNoEarlierDelimiter(url: string)
    requires url == "git@gitlab.com:diamondburned/meistercli.git"
    ensures forall i': nat, j': nat, k': nat :: i' < 14 ==> !PatternAt(url, i', j', k')
  {
    assert url[..14] == "git@gitlab.com";
    forall i': nat | i' < 14
      ensures !IsDelimiter(url[i'])
    {
      assert url[i'] == url[..14][i'];
    }
  }
}
