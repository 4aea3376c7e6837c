/** The VK client: resolving a free-form group link to a screen name, the screen-name
    syntax check, and the accept/reject rules applied to already-decoded API responses.
    The HTTP request itself is a function parameter (`lookup`, `wall`), so "no request is
    made" reads as "the result does not depend on that parameter". */
module VkService {
  import opened Wrappers
  import opened Models

  /** The host marker that disqualifies a path segment. */
  const VkHost := "vk.com"

  datatype VkError =
    | CouldNotExtractGroupName
    | TokenNotConfigured
    | RequestFailed
    | DecodeFailed
    | ApiError(message: string)
    | GroupNotFound
    | InvalidGroupLink(cause: VkError)
    | InvalidScreenNameFormat
    | GroupInfoFailed(cause: VkError)

  /** What a request gave back: a transport error, an undecodable body, or a decoded body. */
  datatype Fetch<T> = TransportError | Undecodable | Decoded(body: T)

  datatype GroupInfo = GroupInfo(id: int, name: string, screenName: string)

  datatype GroupResponse = GroupResponse(response: seq<GroupInfo>, errorCode: int, errorMsg: string)

  datatype WallPost = WallPost(
    id: int,
    ownerId: int,
    date: int,
    text: string,
    likes: int,
    comments: int,
    reposts: int,
    views: int)

  datatype WallResponse = WallResponse(count: int, items: seq<WallPost>, errorCode: int, errorMsg: string)

  /** The parameters of one `wall.get` request that matter to the model. */
  datatype WallRequest = WallRequest(domain: string, count: int)

  // ---------------------------------------------------------------------------
  // Go's string helpers over `seq<char>`.

  /** `strings.TrimPrefix`. */
  function TrimPrefix(s: string, prefix: string): (r: string)
    ensures prefix <= s ==> prefix + r == s
    ensures !(prefix <= s) ==> r == s
  {
    if prefix <= s then s[|prefix|..] else s
  }

  /** `strings.Contains`. */
  function Contains(s: string, sub: string): (r: bool)
    ensures sub <= s ==> r
    ensures r ==> |sub| <= |s|
    decreases |s|
  {
    sub <= s || (s != [] && Contains(s[1..], sub))
  }

  /** `Contains` is substring search: it holds exactly when `sub` starts at some offset. */
  lemma {:induction false} ContainsMeaning(s: string, sub: string)
    ensures Contains(s, sub) <==> exists i :: 0 <= i <= |s| && sub <= s[i..]
    decreases |s|
  {
    if sub <= s {
      assert s[0..] == s;
    } else if s != [] {
      ContainsMeaning(s[1..], sub);
      if Contains(s, sub) {
        var i :| 0 <= i <= |s[1..]| && sub <= s[1..][i..];
        assert s[1..][i..] == s[i + 1..];
      } else {
        forall i | 0 <= i <= |s| ensures !(sub <= s[i..]) {
          if i > 0 {
            assert s[1..][i - 1..] == s[i..];
          }
        }
      }
    } else {
      forall i | 0 <= i <= |s| ensures !(sub <= s[i..]) {
        assert s[i..] == s;
      }
    }
  }

  /** A string whose characters avoid the first character of `sub` does not contain it. */
  lemma {:induction false} NotContainsWithoutFirstChar(s: string, sub: string)
    requires sub != [] && sub[0] !in s
    ensures !Contains(s, sub)
  {
    if s != [] {
      assert s[0] != sub[0];
      NotContainsWithoutFirstChar(s[1..], sub);
    }
  }

  /** `strings.Split(s, "/")`: the segments between slashes, at least one. */
  function Split(s: string): (parts: seq<string>)
    ensures |parts| >= 1
    ensures forall i :: 0 <= i < |parts| ==> '/' !in parts[i]
  {
    if s == [] then [""]
    else
      var rest := Split(s[1..]);
      if s[0] == '/' then [""] + rest
      else [[s[0]] + rest[0]] + rest[1..]
  }

  /** `strings.Join(parts, "/")`, the inverse of `Split`. */
  function Join(parts: seq<string>): string
    requires |parts| >= 1
  {
    if |parts| == 1 then parts[0] else parts[0] + "/" + Join(parts[1..])
  }

  lemma {:induction false} JoinSplit(s: string)
    ensures Join(Split(s)) == s
  {
    if s != [] {
      JoinSplit(s[1..]);
      var rest := Split(s[1..]);
      if s[0] != '/' {
        var parts := Split(s);
        if |rest| == 1 {
          assert parts == [[s[0]] + rest[0]];
        } else {
          assert parts[1..] == rest[1..];
          assert Join(rest) == rest[0] + "/" + Join(rest[1..]);
        }
      } else {
        assert Split(s)[1..] == rest;
      }
    }
  }

  /** A slash-free prefix joins the first segment of what follows it. */
  lemma {:induction false} SplitSlashFreePrefix(a: string, b: string)
    requires '/' !in a
    ensures Split(a + b) == [a + Split(b)[0]] + Split(b)[1..]
  {
    if a != [] {
      assert (a + b)[1..] == a[1..] + b;
      SplitSlashFreePrefix(a[1..], b);
      assert [a[0]] + (a[1..] + Split(b)[0]) == a + Split(b)[0];
    } else {
      assert a + b == b;
      assert a + Split(b)[0] == Split(b)[0];
      assert Split(b) == [Split(b)[0]] + Split(b)[1..];
    }
  }

  /** Splitting `a/b` with a slash-free `a` gives `a` and then the segments of `b`. */
  lemma SplitSegment(a: string, b: string)
    requires '/' !in a
    ensures Split(a + "/" + b) == [a] + Split(b)
  {
    assert a + "/" + b == a + ("/" + b);
    SplitSlashFreePrefix(a, "/" + b);
    assert ("/" + b)[0] == '/' && ("/" + b)[1..] == b;
    assert Split("/" + b) == [""] + Split(b);
    assert a + "" == a;
  }

  lemma SplitSlashFree(a: string)
    requires '/' !in a
    ensures Split(a) == [a]
  {
    assert a + "" == a;
    SplitSlashFreePrefix(a, "");
  }

  /** Joining slash-free segments and splitting again gives them back. */
  lemma {:induction false} SplitJoin(parts: seq<string>)
    requires |parts| >= 1
    requires forall i :: 0 <= i < |parts| ==> '/' !in parts[i]
    ensures Split(Join(parts)) == parts
  {
    if |parts| == 1 {
      SplitSlashFree(parts[0]);
    } else {
      SplitJoin(parts[1..]);
      SplitSegment(parts[0], Join(parts[1..]));
    }
  }

  // ---------------------------------------------------------------------------
  // ExtractGroupScreenName.

  /** The link with `https://`, then `http://`, then `www.` removed, each at most once
      and only as a prefix. */
  function StripScheme(link: string): (r: string)
    ensures |r| <= |link| && link[|link| - |r|..] == r
  {
    TrimPrefix(TrimPrefix(TrimPrefix(link, "https://"), "http://"), "www.")
  }

  /** A segment that can be the screen name: non-empty and free of the host marker. */
  predicate Usable(part: string)
  {
    part != "" && !Contains(part, VkHost)
  }

  /** The first usable segment, or None when every segment is empty or names the host. */
  function FirstUsable(parts: seq<string>): (r: Option<string>)
    ensures r.Some? ==> exists k :: 0 <= k < |parts| && parts[k] == r.value && Usable(r.value) &&
                          forall j :: 0 <= j < k ==> !Usable(parts[j])
    ensures r.None? <==> forall j :: 0 <= j < |parts| ==> !Usable(parts[j])
  {
    if parts == [] then None
    else if Contains(parts[0], VkHost) then FirstUsable(parts[1..])
    else if parts[0] != "" then Some(parts[0])
    else FirstUsable(parts[1..])
  }

  /** What `ExtractGroupScreenName` returns for `link`. */
  function ScreenNameOf(link: string): (r: Result<string, VkError>)
    ensures r.Success? ==> Usable(r.value) && '/' !in r.value
    ensures r.Failure? ==> r.error == CouldNotExtractGroupName
  {
    var parts := Split(StripScheme(link));
    match FirstUsable(parts)
    case Some(name) => Success(name)
    case None => Failure(CouldNotExtractGroupName)
  }

  method ExtractGroupScreenName(link: string) returns (r: Result<string, VkError>)
    ensures r == ScreenNameOf(link)
  {
    var s := TrimPrefix(link, "https://");
    s := TrimPrefix(s, "http://");
    s := TrimPrefix(s, "www.");
    var parts := Split(s);
    var screenName := "";
    var i := 0;
    while i < |parts|
      invariant 0 <= i <= |parts|
      invariant screenName == ""
      invariant FirstUsable(parts) == FirstUsable(parts[i..])
    {
      assert parts[i..][1..] == parts[i + 1..];
      if Contains(parts[i], VkHost) {
        i := i + 1;
        continue;
      }
      if parts[i] != "" {
        screenName := parts[i];
        break;
      }
      i := i + 1;
    }
    if screenName == "" {
      return Failure(CouldNotExtractGroupName);
    }
    return Success(screenName);
  }

  lemma TrimLiteral(p: string, t: string)
    ensures TrimPrefix(p + t, p) == t
  {
    assert (p + t)[|p|..] == t;
  }

  lemma TrimAbsent(s: string, p: string, k: nat)
    requires k < |s| && k < |p| && s[k] != p[k]
    ensures TrimPrefix(s, p) == s
  {
  }

  /** `vk.com/name` names the group `name`. */
  lemma HostPathResolves(name: string)
    requires name != "" && '/' !in name && !Contains(name, VkHost)
    ensures StripScheme(VkHost + "/" + name) == VkHost + "/" + name
    ensures FirstUsable(Split(VkHost + "/" + name)) == Some(name)
  {
    var tail := VkHost + "/" + name;
    assert tail[0] == 'v';
    TrimAbsent(tail, "https://", 0);
    TrimAbsent(tail, "http://", 0);
    TrimAbsent(tail, "www.", 0);
    SplitSegment(VkHost, name);
    SplitSlashFree(name);
    assert Contains(VkHost, VkHost);
    assert Split(tail) == [VkHost, name];
    assert [VkHost, name][1..] == [name];
  }

  lemma Regroup(p: string, name: string)
    ensures p + VkHost + "/" + name == p + (VkHost + "/" + name)
  {
  }

  /** A link that strips to `vk.com/name` resolves to `name`. */
  lemma ResolvesThroughHostPath(link: string, name: string)
    requires name != "" && '/' !in name && !Contains(name, VkHost)
    requires StripScheme(link) == VkHost + "/" + name
    ensures ScreenNameOf(link) == Success(name)
  {
    HostPathResolves(name);
  }

  lemma StripsHttps(t: string)
    requires t != [] && t[0] == 'v'
    ensures StripScheme("https://" + t) == t
  {
    TrimLiteral("https://", t);
    TrimAbsent(t, "http://", 0);
    TrimAbsent(t, "www.", 0);
  }

  lemma StripsHttp(t: string)
    requires t != [] && t[0] == 'v'
    ensures StripScheme("http://" + t) == t
  {
    assert ("http://" + t)[4] == ':';
    TrimAbsent("http://" + t, "https://", 4);
    TrimLiteral("http://", t);
    TrimAbsent(t, "www.", 0);
  }

  lemma StripsWww(t: string)
    requires t != [] && t[0] == 'v'
    ensures StripScheme("www." + t) == t
    ensures StripScheme("https://www." + t) == t
  {
    TrimAbsent("www." + t, "https://", 0);
    TrimAbsent("www." + t, "http://", 0);
    TrimLiteral("www.", t);
    assert "https://www." + t == "https://" + ("www." + t);
    TrimLiteral("https://", "www." + t);
    TrimAbsent("www." + t, "http://", 0);
  }

  /** Resolving a group URL gives back the name in it, whatever scheme and `www.`
      prefix it is written with. */
  lemma ScreenNameRoundTrip(name: string)
    requires name != "" && '/' !in name && !Contains(name, VkHost)
    ensures ScreenNameOf("https://" + VkHost + "/" + name) == Success(name)
    ensures ScreenNameOf("http://" + VkHost + "/" + name) == Success(name)
    ensures ScreenNameOf("https://www." + VkHost + "/" + name) == Success(name)
    ensures ScreenNameOf("www." + VkHost + "/" + name) == Success(name)
    ensures ScreenNameOf(VkHost + "/" + name) == Success(name)
  {
    var tail := VkHost + "/" + name;
    assert tail[0] == 'v';
    HostPathResolves(name);
    ResolvesThroughHostPath(tail, name);
    StripsHttps(tail);
    Regroup("https://", name);
    ResolvesThroughHostPath("https://" + tail, name);
    StripsHttp(tail);
    Regroup("http://", name);
    ResolvesThroughHostPath("http://" + tail, name);
    StripsWww(tail);
    Regroup("www.", name);
    ResolvesThroughHostPath("www." + tail, name);
    Regroup("https://www.", name);
    ResolvesThroughHostPath("https://www." + tail, name);
  }

  /** The spellings of the example links, as prefix + host path. */
  lemma ExampleSpellings()
    ensures "https://vk.com/example" == "https://" + VkHost + "/" + "example"
    ensures "vk.com/example" == VkHost + "/" + "example"
    ensures "www.vk.com/example" == "www." + VkHost + "/" + "example"
  {
  }

  /** Three spellings of one group resolve to its name. */
  lemma ScreenNameExamples()
    ensures ScreenNameOf("https://vk.com/example") == Success("example")
    ensures ScreenNameOf("vk.com/example") == Success("example")
    ensures ScreenNameOf("www.vk.com/example") == Success("example")
  {
    NotContainsWithoutFirstChar("example", VkHost);
    ScreenNameRoundTrip("example");
    ExampleSpellings();
  }

  /** The empty link has no usable segment and is rejected. */
  lemma ScreenNameRejectsEmpty()
    ensures ScreenNameOf("") == Failure(CouldNotExtractGroupName)
  {
    assert Split("") == [""];
  }

  /** A link naming only the host has no usable segment and is rejected. */
  lemma ScreenNameRejectsBareHost()
    ensures ScreenNameOf("https://vk.com/") == Failure(CouldNotExtractGroupName)
  {
    var t := "vk.com/";
    assert "https://" + t == "https://vk.com/";
    TrimLiteral("https://", t);
    TrimAbsent(t, "http://", 0);
    TrimAbsent(t, "www.", 0);
    assert StripScheme("https://vk.com/") == t;
    SplitSegment(VkHost, "");
    assert VkHost + "/" + "" == t;
    assert Split("") == [""];
    assert Contains(VkHost, VkHost);
  }

  /** Both a scheme and `www.` are stripped, the scheme first. */
  lemma StripSchemeBoth()
    ensures StripScheme("https://www.vk.com/x") == "vk.com/x"
  {
    var u := "vk.com/x";
    var t := "www." + u;
    assert "https://" + t == "https://www.vk.com/x";
    TrimLiteral("https://", t);
    TrimAbsent(t, "http://", 0);
    TrimLiteral("www.", u);
  }

  /** A scheme is stripped once, not a second time. */
  lemma StripSchemeOnce()
    ensures StripScheme("http://https://x") == "https://x"
  {
    var t := "https://x";
    assert "http://" + t == "http://https://x";
    assert ("http://" + t)[4] == ':';
    TrimAbsent("http://" + t, "https://", 4);
    TrimLiteral("http://", t);
    TrimAbsent(t, "www.", 0);
  }

  /** A scheme after `www.` is not stripped. */
  lemma StripSchemeAfterWww()
    ensures StripScheme("www.https://x") == "https://x"
  {
    var t := "https://x";
    assert "www." + t == "www.https://x";
    TrimAbsent("www." + t, "https://", 0);
    TrimAbsent("www." + t, "http://", 0);
    TrimLiteral("www.", t);
  }

  /** Prefixes are only stripped at the start of the link. */
  lemma StripSchemeOnlyAtStart()
    ensures StripScheme("vk.com/https://x") == "vk.com/https://x"
  {
    var t := "vk.com/https://x";
    TrimAbsent(t, "https://", 0);
    TrimAbsent(t, "http://", 0);
    TrimAbsent(t, "www.", 0);
  }

  // ---------------------------------------------------------------------------
  // The screen-name pattern `^([a-zA-Z0-9_-]+|club\d+|public\d+|-\d+)$`.

  predicate IsDigit(c: char) { '0' <= c <= '9' }

  predicate IsNameChar(c: char)
  {
    ('a' <= c <= 'z') || ('A' <= c <= 'Z') || IsDigit(c) || c == '_' || c == '-'
  }

  /** `\d+` */
  predicate Digits(s: string)
  {
    s != [] && forall i :: 0 <= i < |s| ==> IsDigit(s[i])
  }

  /** `[a-zA-Z0-9_-]+` */
  predicate NameChars(s: string)
  {
    s != [] && forall i :: 0 <= i < |s| ==> IsNameChar(s[i])
  }

  /** `word` followed by `\d+`. */
  predicate PrefixedDigits(s: string, word: string)
  {
    word <= s && Digits(s[|word|..])
  }

  /** The anchored alternation as written; it accepts exactly the non-empty strings over
      `[A-Za-z0-9_-]`, the other three alternatives being special cases of the first. */
  function ValidScreenName(s: string): (ok: bool)
    ensures ok <==> NameChars(s)
  {
    var club := PrefixedDigits(s, "club");
    var public := PrefixedDigits(s, "public");
    var negative := PrefixedDigits(s, "-");
    assert club || public || negative ==> NameChars(s) by {
      if club { PrefixedDigitsAreNameChars(s, "club"); }
      if public { PrefixedDigitsAreNameChars(s, "public"); }
      if negative { PrefixedDigitsAreNameChars(s, "-"); }
    }
    NameChars(s) || club || public || negative
  }

  lemma PrefixedDigitsAreNameChars(s: string, word: string)
    requires NameChars(word) || word == "-"
    requires PrefixedDigits(s, word)
    ensures NameChars(s)
  {
    forall i | 0 <= i < |s| ensures IsNameChar(s[i]) {
      if i < |word| {
        assert s[i] == word[i];
      } else {
        assert s[i] == s[|word|..][i - |word|];
      }
    }
  }

  lemma ScreenNameCheckExamples()
    ensures ValidScreenName("club123456")
    ensures ValidScreenName("public42")
    ensures ValidScreenName("-12345")
    ensures ValidScreenName("my_group-1")
    ensures !ValidScreenName("my group")
    ensures !ValidScreenName("<script>")
  {
    assert !IsNameChar("my group"[2]);
    assert !IsNameChar("<script>"[0]);
  }

  // ---------------------------------------------------------------------------
  // Response acceptance.

  /** The wall count sent to the API: requests outside [1, 100] become 100. */
  function ClampCount(count: int): (c: int)
    ensures 1 <= c <= 100
    ensures 1 <= count <= 100 ==> c == count
    ensures count <= 0 || count > 100 ==> c == 100
  {
    if count <= 0 || count > 100 then 100 else count
  }

  /** `GetGroupInfo`: the group whose Domain is the first returned screen name. */
  function GetGroupInfo(token: string, screenName: string, lookup: string -> Fetch<GroupResponse>)
    : (r: Result<Group, VkError>)
    ensures token == "" ==> r == Failure(TokenNotConfigured)
    ensures r.Success? <==>
      token != "" && lookup(screenName).Decoded? &&
      lookup(screenName).body.errorCode == 0 && |lookup(screenName).body.response| > 0
    ensures r.Success? ==> r.value == Group(0, lookup(screenName).body.response[0].screenName, 0, Zero)
    ensures token != "" && lookup(screenName).Decoded? && lookup(screenName).body.errorCode != 0 ==>
      r == Failure(ApiError(lookup(screenName).body.errorMsg))
  {
    if token == "" then Failure(TokenNotConfigured)
    else
      match lookup(screenName)
      case TransportError => Failure(RequestFailed)
      case Undecodable => Failure(DecodeFailed)
      case Decoded(resp) =>
        if resp.errorCode != 0 then Failure(ApiError(resp.errorMsg))
        else if |resp.response| == 0 then Failure(GroupNotFound)
        else Success(Group(0, resp.response[0].screenName, 0, Zero))
  }

  /** `GetWallPosts`: the decoded items, with the count clamped before the request. */
  function GetWallPosts(token: string, domain: string, count: int, wall: WallRequest -> Fetch<WallResponse>)
    : (r: Result<seq<WallPost>, VkError>)
    ensures token == "" ==> r == Failure(TokenNotConfigured)
    ensures r.Success? <==>
      token != "" && wall(WallRequest(domain, ClampCount(count))).Decoded? &&
      wall(WallRequest(domain, ClampCount(count))).body.errorCode == 0
    ensures r.Success? ==> r.value == wall(WallRequest(domain, ClampCount(count))).body.items
  {
    if token == "" then Failure(TokenNotConfigured)
    else
      match wall(WallRequest(domain, ClampCount(count)))
      case TransportError => Failure(RequestFailed)
      case Undecodable => Failure(DecodeFailed)
      case Decoded(resp) =>
        if resp.errorCode != 0 then Failure(ApiError(resp.errorMsg)) else Success(resp.items)
  }

  /** What `ParseGroupFromLink` returns: extract, then validate, then look up. */
  function ParseOutcome(token: string, link: string, lookup: string -> Fetch<GroupResponse>)
    : (r: Result<Group, VkError>)
    ensures r.Success? <==>
      ScreenNameOf(link).Success? && NameChars(ScreenNameOf(link).value) &&
      GetGroupInfo(token, ScreenNameOf(link).value, lookup).Success?
    ensures (r.Failure? && r.error.InvalidGroupLink?) <==> ScreenNameOf(link).Failure?
    ensures r == Failure(InvalidScreenNameFormat) <==>
      ScreenNameOf(link).Success? && !NameChars(ScreenNameOf(link).value)
    ensures r.Success? ==> r.value.domain == lookup(ScreenNameOf(link).value).body.response[0].screenName
  {
    match ScreenNameOf(link)
    case Failure(e) => Failure(InvalidGroupLink(e))
    case Success(name) =>
      if !ValidScreenName(name) then Failure(InvalidScreenNameFormat)
      else
        match GetGroupInfo(token, name, lookup)
        case Failure(e) => Failure(GroupInfoFailed(e))
        case Success(g) => Success(g)
  }

  method ParseGroupFromLink(token: string, link: string, lookup: string -> Fetch<GroupResponse>)
    returns (r: Result<Group, VkError>)
    ensures r == ParseOutcome(token, link, lookup)
  {
    var screenName := ExtractGroupScreenName(link);
    if screenName.Failure? {
      return Failure(InvalidGroupLink(screenName.error));
    }
    if !ValidScreenName(screenName.value) {
      return Failure(InvalidScreenNameFormat);
    }
    var group := GetGroupInfo(token, screenName.value, lookup);
    if group.Failure? {
      return Failure(GroupInfoFailed(group.error));
    }
    return Success(group.value);
  }

  /** The three stages gate each other: an extraction error skips validation and the
      lookup, a validation failure skips the lookup, and only a valid screen name is
      ever looked up. */
  lemma ParseStagesInOrder(token: string, link: string, lookup: string -> Fetch<GroupResponse>)
    ensures ScreenNameOf(link).Failure? ==>
      ParseOutcome(token, link, lookup) == Failure(InvalidGroupLink(CouldNotExtractGroupName))
    ensures ScreenNameOf(link).Success? && !NameChars(ScreenNameOf(link).value) ==>
      ParseOutcome(token, link, lookup) == Failure(InvalidScreenNameFormat)
    ensures ParseOutcome(token, link, lookup).Success? ==>
      ScreenNameOf(link).Success? && NameChars(ScreenNameOf(link).value) &&
      ParseOutcome(token, link, lookup) == GetGroupInfo(token, ScreenNameOf(link).value, lookup)
  {
  }
}
