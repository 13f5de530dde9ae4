/** The URL helpers and text formatters of the social-media scraper:
    the `SocialPost`/`SocialProfile` records with their defaults and
    `to_text`, `detect_platform`, `extract_username`, the early returns of
    `scrape`, and `get_scraped_text`. The network fetchers are parameters. */
module SocialScraper {
  import opened Wrappers
  import opened Seqs
  import opened Text
  import opened Numbers
  import opened Url

  datatype Platform = Instagram | Facebook | Twitter | LinkedIn | TikTok | YouTube {

    /** The string `detect_platform` returns. */
    function Name(): string {
      match this
      case Instagram => "instagram"
      case Facebook => "facebook"
      case Twitter => "twitter"
      case LinkedIn => "linkedin"
      case TikTok => "tiktok"
      case YouTube => "youtube"
    }

    /** Position in the if/elif chain of `detect_platform`. */
    function Rank(): nat {
      match this
      case Instagram => 0
      case Facebook => 1
      case Twitter => 2
      case LinkedIn => 3
      case TikTok => 4
      case YouTube => 5
    }

    /** The netloc substrings that select this platform. */
    function Needles(): seq<string> {
      match this
      case Instagram => ["instagram.com"]
      case Facebook => ["facebook.com", "fb.com"]
      case Twitter => ["twitter.com", "x.com"]
      case LinkedIn => ["linkedin.com"]
      case TikTok => ["tiktok.com"]
      case YouTube => ["youtube.com", "youtu.be"]
    }

    /** The platforms whose usernames sit in the first path segment. */
    predicate HasUsernamePath() {
      this == Instagram || this == Twitter || this == Facebook
    }
  }

  /** `raw_data` holds whatever the fetcher returned; only its presence
      matters here, so its values are strings. */
  type RawData = map<string, string>

  /** A post after `__post_init__`: the list and dict fields are never
      `None`. */
  datatype SocialPost = SocialPost(
    platform: string, postId: string, url: string, author: string, content: string,
    timestamp: Option<string>, likes: int, comments: int, shares: int,
    mediaUrls: seq<string>, hashtags: seq<string>, mentions: seq<string>, rawData: RawData)

  /** A profile after `__post_init__`. */
  datatype SocialProfile = SocialProfile(
    platform: string, username: string, displayName: string, bio: string, url: string,
    followers: int, following: int, postsCount: int, profilePicUrl: string,
    isVerified: bool, externalUrl: string, rawData: RawData)

  /** The dataclass constructor followed by `__post_init__`. `None` here
      stands for an argument the caller left out, which takes its field
      default. An explicit `None` passed for `likes`, `comments` or
      `shares` is not modelled: `__post_init__` resets only the media URLs,
      hashtags, mentions and raw data, so Python would keep `None` there. */
  function NewPost(
    platform: string, postId: string, url: string, author: string, content: string,
    timestamp: Option<string>, likes: Option<int>, comments: Option<int>, shares: Option<int>,
    mediaUrls: Option<seq<string>>, hashtags: Option<seq<string>>, mentions: Option<seq<string>>,
    rawData: Option<RawData>): (p: SocialPost)
    ensures p.platform == platform && p.postId == postId && p.url == url
    ensures p.author == author && p.content == content && p.timestamp == timestamp
    ensures p.likes == (if likes.Some? then likes.value else 0)
    ensures p.comments == (if comments.Some? then comments.value else 0)
    ensures p.shares == (if shares.Some? then shares.value else 0)
    ensures p.mediaUrls == (if mediaUrls.Some? then mediaUrls.value else [])
    ensures p.hashtags == (if hashtags.Some? then hashtags.value else [])
    ensures p.mentions == (if mentions.Some? then mentions.value else [])
    ensures p.rawData == (if rawData.Some? then rawData.value else map[])
  {
    SocialPost(platform, postId, url, author, content, timestamp,
      likes.GetOr(0), comments.GetOr(0), shares.GetOr(0),
      mediaUrls.GetOr([]), hashtags.GetOr([]), mentions.GetOr([]), rawData.GetOr(map[]))
  }

  function NewProfile(
    platform: string, username: string, displayName: string, bio: string, url: string,
    followers: Option<int>, following: Option<int>, postsCount: Option<int>,
    profilePicUrl: Option<string>, isVerified: Option<bool>, externalUrl: Option<string>,
    rawData: Option<RawData>): (p: SocialProfile)
    ensures p.platform == platform && p.username == username && p.displayName == displayName
    ensures p.bio == bio && p.url == url
    ensures p.followers == (if followers.Some? then followers.value else 0)
    ensures p.following == (if following.Some? then following.value else 0)
    ensures p.postsCount == (if postsCount.Some? then postsCount.value else 0)
    ensures p.profilePicUrl == (if profilePicUrl.Some? then profilePicUrl.value else "")
    ensures p.isVerified == (isVerified.Some? && isVerified.value)
    ensures p.externalUrl == (if externalUrl.Some? then externalUrl.value else "")
    ensures p.rawData == (if rawData.Some? then rawData.value else map[])
  {
    SocialProfile(platform, username, displayName, bio, url,
      followers.GetOr(0), following.GetOr(0), postsCount.GetOr(0), profilePicUrl.GetOr(""),
      isVerified.GetOr(false), externalUrl.GetOr(""), rawData.GetOr(map[]))
  }

  // ---------------------------------------------------------------------
  // to_text
  // ---------------------------------------------------------------------

  /** `self.timestamp or 'Unknown'`: an empty timestamp is falsy too. */
  function PostedAt(ts: Option<string>): string {
    if ts.Some? && ts.value != "" then ts.value else "Unknown"
  }

  /** A line of three counts with their labels, such as
      `f"Engagement: {likes} likes, {comments} comments, {shares} shares"`. */
  function Counts(head: string, a: int, l1: string, b: int, l2: string, c: int, l3: string): string {
    head + IntToString(a) + l1 + IntToString(b) + l2 + IntToString(c) + l3
  }

  /** The `lines` list of `SocialPost.to_text`. */
  function PostLines(p: SocialPost): seq<string> {
    PostHead(p) + PostTags(p)
  }

  /** The nine lines every post text has. */
  function PostHead(p: SocialPost): seq<string> {
    [
      "Platform: " + p.platform,
      "Author: " + p.author,
      "Posted: " + PostedAt(p.timestamp),
      "URL: " + p.url,
      "",
      "Content:",
      p.content,
      "",
      Counts("Engagement: ", p.likes, " likes, ", p.comments, " comments, ", p.shares, " shares")]
  }

  /** The optional `Hashtags` and `Mentions` lines. */
  function PostTags(p: SocialPost): seq<string> {
    (if p.hashtags != [] then ["Hashtags: " + Join(", ", p.hashtags)] else [])
      + (if p.mentions != [] then ["Mentions: " + Join(", ", p.mentions)] else [])
  }

  function PostText(p: SocialPost): string {
    Join("\n", PostLines(p))
  }

  /** `" âœ“"`: the check mark as the source file spells it (UTF-8 bytes
      of U+2713 read back as Windows-1252). */
  const VerifiedMark: string := " âœ“"

  /** The `lines` list of `SocialProfile.to_text`. */
  function ProfileLines(p: SocialProfile): seq<string> {
    ProfileHead(p) + (if p.externalUrl != "" then ["Website: " + p.externalUrl] else [])
  }

  /** The nine lines every profile text has. */
  function ProfileHead(p: SocialProfile): seq<string> {
    [
      "Platform: " + p.platform,
      "Username: @" + p.username + (if p.isVerified then VerifiedMark else ""),
      "Display Name: " + p.displayName,
      "URL: " + p.url,
      "",
      "Bio:",
      p.bio,
      "",
      Counts("Stats: ", p.followers, " followers, ", p.following, " following, ", p.postsCount, " posts")]
  }

  function ProfileText(p: SocialProfile): string {
    Join("\n", ProfileLines(p))
  }

  predicate NoNewline(s: string) {
    '\n' !in s
  }

  predicate AllNoNewline(ss: seq<string>) {
    forall i :: 0 <= i < |ss| ==> NoNewline(ss[i])
  }

  lemma IntNoNewline(i: int)
    ensures NoNewline(IntToString(i))
  {
    var s := IntToString(i);
    if i < 0 {
      var digits := NatToString(-i);
      assert s == "-" + digits;
      assert forall k :: 1 <= k < |s| ==> s[k] == digits[k - 1];
    }
  }

  lemma {:induction false} JoinNoNewline(sep: string, parts: seq<string>)
    requires NoNewline(sep) && AllNoNewline(parts)
    ensures NoNewline(Join(sep, parts))
    decreases |parts|
  {
    if |parts| > 1 {
      JoinNoNewline(sep, parts[1..]);
      assert Join(sep, parts) == parts[0] + sep + Join(sep, parts[1..]);
    }
  }

  /** A post's fields as they land on the lines of its text. */
  predicate PostFieldsOneLine(p: SocialPost) {
    && NoNewline(p.platform) && NoNewline(p.author) && NoNewline(p.url) && NoNewline(p.content)
    && (p.timestamp.Some? ==> NoNewline(p.timestamp.value))
    && AllNoNewline(p.hashtags) && AllNoNewline(p.mentions)
  }

  lemma ConcatNoNewline(a: string, b: string)
    requires NoNewline(a) && NoNewline(b)
    ensures NoNewline(a + b)
  {
  }

  lemma AllNoNewlineConcat(a: seq<string>, b: seq<string>)
    requires AllNoNewline(a) && AllNoNewline(b)
    ensures AllNoNewline(a + b)
  {
    forall i | 0 <= i < |a + b| ensures NoNewline((a + b)[i]) {
      if i < |a| {
        assert (a + b)[i] == a[i];
      } else {
        assert (a + b)[i] == b[i - |a|];
      }
    }
  }

  lemma CountsNoNewline(head: string, a: int, l1: string, b: int, l2: string, c: int, l3: string)
    requires NoNewline(head) && NoNewline(l1) && NoNewline(l2) && NoNewline(l3)
    ensures NoNewline(Counts(head, a, l1, b, l2, c, l3))
  {
    IntNoNewline(a);
    IntNoNewline(b);
    IntNoNewline(c);
    var x := head + IntToString(a);
    ConcatNoNewline(head, IntToString(a));
    ConcatNoNewline(x, l1);
    ConcatNoNewline(x + l1, IntToString(b));
    ConcatNoNewline(x + l1 + IntToString(b), l2);
    ConcatNoNewline(x + l1 + IntToString(b) + l2, IntToString(c));
    ConcatNoNewline(x + l1 + IntToString(b) + l2 + IntToString(c), l3);
  }

  lemma PostLinesNoNewline(p: SocialPost)
    requires PostFieldsOneLine(p)
    ensures AllNoNewline(PostLines(p))
  {
    PostHeadNoNewline(p);
    PostTagsNoNewline(p);
    AllNoNewlineConcat(PostHead(p), PostTags(p));
  }

  lemma PostHeadNoNewline(p: SocialPost)
    requires PostFieldsOneLine(p)
    ensures AllNoNewline(PostHead(p))
  {
    PostLabelsNoNewline();
    CountsNoNewline("Engagement: ", p.likes, " likes, ", p.comments, " comments, ", p.shares, " shares");
    ConcatNoNewline("Platform: ", p.platform);
    ConcatNoNewline("Author: ", p.author);
    ConcatNoNewline("Posted: ", PostedAt(p.timestamp));
    ConcatNoNewline("URL: ", p.url);
  }

  lemma PostLabelsNoNewline()
    ensures NoNewline("Platform: ") && NoNewline("Author: ") && NoNewline("Posted: ")
    ensures NoNewline("URL: ") && NoNewline("Content:") && NoNewline("Unknown")
    ensures NoNewline("Engagement: ") && NoNewline(" likes, ") && NoNewline(" comments, ") && NoNewline(" shares")
  {
  }

  lemma PostTagsNoNewline(p: SocialPost)
    requires AllNoNewline(p.hashtags) && AllNoNewline(p.mentions)
    ensures AllNoNewline(PostTags(p))
  {
    JoinNoNewline(", ", p.hashtags);
    JoinNoNewline(", ", p.mentions);
    AllNoNewlineConcat(
      if p.hashtags != [] then ["Hashtags: " + Join(", ", p.hashtags)] else [],
      if p.mentions != [] then ["Mentions: " + Join(", ", p.mentions)] else []);
  }

  /** Reading a post's text line by line gives back what `to_text` put
      there: nine fixed lines, the `Posted` line saying `Unknown` when the
      timestamp is missing or empty, then a `Hashtags` line exactly when
      there are hashtags and a `Mentions` line exactly when there are
      mentions, the latter last. */
  lemma PostTextLines(p: SocialPost)
    requires PostFieldsOneLine(p)
    ensures var ls := Split(PostText(p), '\n');
      && |ls| == 9 + (if p.hashtags != [] then 1 else 0) + (if p.mentions != [] then 1 else 0)
      && ls[0] == "Platform: " + p.platform
      && ls[2] == "Posted: " + (if p.timestamp.None? || p.timestamp.value == "" then "Unknown" else p.timestamp.value)
      && ls[3] == "URL: " + p.url
      && ls[5] == "Content:" && ls[6] == p.content
      && (p.hashtags != [] ==> ls[9] == "Hashtags: " + Join(", ", p.hashtags))
      && (p.mentions != [] ==> ls[|ls| - 1] == "Mentions: " + Join(", ", p.mentions))
  {
    PostLinesNoNewline(p);
    SplitJoin(PostLines(p), '\n');
  }

  /** Whatever the fields hold, newlines included: a post's text is its
      first six lines (up to `Content:`), a newline, the content exactly
      as given, a newline, and the remaining lines. */
  lemma PostTextAroundContent(p: SocialPost)
    ensures PostText(p) ==
      Join("\n", PostHead(p)[..6]) + "\n" + p.content + "\n" + Join("\n", PostHead(p)[7..] + PostTags(p))
    ensures PostHead(p)[..6] == ["Platform: " + p.platform, "Author: " + p.author,
      "Posted: " + PostedAt(p.timestamp), "URL: " + p.url, "", "Content:"]
  {
    var head, ls := PostHead(p), PostLines(p);
    JoinAround("\n", ls, 6);
    assert ls[..6] == head[..6] && ls[6] == p.content && ls[7..] == head[7..] + PostTags(p);
  }

  predicate ProfileFieldsOneLine(p: SocialProfile) {
    && NoNewline(p.platform) && NoNewline(p.username) && NoNewline(p.displayName)
    && NoNewline(p.url) && NoNewline(p.bio) && NoNewline(p.externalUrl)
  }

  lemma ProfileLinesNoNewline(p: SocialProfile)
    requires ProfileFieldsOneLine(p)
    ensures AllNoNewline(ProfileLines(p))
  {
    ProfileHeadNoNewline(p);
    AllNoNewlineConcat(ProfileHead(p), if p.externalUrl != "" then ["Website: " + p.externalUrl] else []);
  }

  lemma ProfileHeadNoNewline(p: SocialProfile)
    requires ProfileFieldsOneLine(p)
    ensures AllNoNewline(ProfileHead(p))
  {
    ProfileLabelsNoNewline();
    CountsNoNewline("Stats: ", p.followers, " followers, ", p.following, " following, ", p.postsCount, " posts");
    ConcatNoNewline("Platform: ", p.platform);
    ConcatNoNewline("Username: @", p.username);
    ConcatNoNewline("Username: @" + p.username, if p.isVerified then VerifiedMark else "");
    ConcatNoNewline("Display Name: ", p.displayName);
    ConcatNoNewline("URL: ", p.url);
  }

  lemma ProfileLabelsNoNewline()
    ensures NoNewline("Platform: ") && NoNewline("Username: @") && NoNewline(VerifiedMark)
    ensures NoNewline("Display Name: ") && NoNewline("URL: ") && NoNewline("Bio:")
    ensures NoNewline("Stats: ") && NoNewline(" followers, ") && NoNewline(" following, ") && NoNewline(" posts")
  {
  }

  /** Reading a profile's text line by line: the username line carries the
      check mark exactly when the profile is verified, and a tenth
      `Website` line appears exactly when there is an external URL. */
  lemma ProfileTextLines(p: SocialProfile)
    requires ProfileFieldsOneLine(p)
    ensures var ls := Split(ProfileText(p), '\n');
      && |ls| == (if p.externalUrl != "" then 10 else 9)
      && ls[0] == "Platform: " + p.platform
      && ls[1] == "Username: @" + p.username + (if p.isVerified then VerifiedMark else "")
      && ls[6] == p.bio
      && (p.externalUrl != "" ==> ls[9] == "Website: " + p.externalUrl)
  {
    ProfileLinesNoNewline(p);
    SplitJoin(ProfileLines(p), '\n');
  }

  /** Whatever the fields hold, newlines included: a profile's text is its
      first six lines (up to `Bio:`), a newline, the bio exactly as given,
      a newline, and the remaining lines. */
  lemma ProfileTextAroundBio(p: SocialProfile)
    ensures ProfileText(p) ==
      Join("\n", ProfileHead(p)[..6]) + "\n" + p.bio + "\n"
      + Join("\n", ProfileHead(p)[7..] + (if p.externalUrl != "" then ["Website: " + p.externalUrl] else []))
    ensures ProfileHead(p)[..6] == ["Platform: " + p.platform,
      "Username: @" + p.username + (if p.isVerified then VerifiedMark else ""),
      "Display Name: " + p.displayName, "URL: " + p.url, "", "Bio:"]
  {
    var head, ls := ProfileHead(p), ProfileLines(p);
    var site := if p.externalUrl != "" then ["Website: " + p.externalUrl] else [];
    JoinAround("\n", ls, 6);
    assert ls[..6] == head[..6] && ls[6] == p.bio && ls[7..] == head[7..] + site;
  }

  // ---------------------------------------------------------------------
  // detect_platform / extract_username
  // ---------------------------------------------------------------------

  /** Some needle occurs in the domain. */
  predicate MatchesAny(domain: string, needles: seq<string>) {
    |needles| > 0 && (Contains(domain, needles[0]) || MatchesAny(domain, needles[1..]))
  }

  predicate Hit(domain: string, q: Platform) {
    MatchesAny(domain, q.Needles())
  }

  /** The platforms in the order `detect_platform` tries them. */
  const Order: seq<Platform> := [Instagram, Facebook, Twitter, LinkedIn, TikTok, YouTube]

  /** Index of the first platform of `ps` that the domain hits, or `|ps|`. */
  function FirstHit(domain: string, ps: seq<Platform>): (k: nat)
    ensures k <= |ps|
    ensures forall j :: 0 <= j < k ==> !Hit(domain, ps[j])
    ensures k < |ps| ==> Hit(domain, ps[k])
  {
    if |ps| == 0 || Hit(domain, ps[0]) then 0 else 1 + FirstHit(domain, ps[1..])
  }

  /** `detect_platform` on the URL's netloc. */
  function DetectPlatform(netloc: string): Option<Platform> {
    var d := Lower(netloc);
    if Contains(d, "instagram.com") then Some(Instagram)
    else if Contains(d, "facebook.com") || Contains(d, "fb.com") then Some(Facebook)
    else if Contains(d, "twitter.com") || Contains(d, "x.com") then Some(Twitter)
    else if Contains(d, "linkedin.com") then Some(LinkedIn)
    else if Contains(d, "tiktok.com") then Some(TikTok)
    else if Contains(d, "youtube.com") || Contains(d, "youtu.be") then Some(YouTube)
    else None
  }

  lemma MatchesAnyCons(domain: string, n: string, rest: seq<string>)
    ensures MatchesAny(domain, [n] + rest) <==> Contains(domain, n) || MatchesAny(domain, rest)
  {
    assert ([n] + rest)[1..] == rest;
  }

  /** Each platform's needles are the substrings its `elif` tests. */
  lemma HitUnfold(d: string)
    ensures Hit(d, Instagram) <==> Contains(d, "instagram.com")
    ensures Hit(d, Facebook) <==> Contains(d, "facebook.com") || Contains(d, "fb.com")
    ensures Hit(d, Twitter) <==> Contains(d, "twitter.com") || Contains(d, "x.com")
    ensures Hit(d, LinkedIn) <==> Contains(d, "linkedin.com")
    ensures Hit(d, TikTok) <==> Contains(d, "tiktok.com")
    ensures Hit(d, YouTube) <==> Contains(d, "youtube.com") || Contains(d, "youtu.be")
  {
    assert !MatchesAny(d, []);
    assert ["instagram.com"] + [] == Instagram.Needles();
    assert ["linkedin.com"] + [] == LinkedIn.Needles();
    assert ["tiktok.com"] + [] == TikTok.Needles();
    assert ["fb.com"] + [] == ["fb.com"] && ["x.com"] + [] == ["x.com"] && ["youtu.be"] + [] == ["youtu.be"];
    MatchesAnyCons(d, "instagram.com", []);
    MatchesAnyCons(d, "fb.com", []);
    MatchesAnyCons(d, "facebook.com", ["fb.com"]);
    MatchesAnyCons(d, "x.com", []);
    MatchesAnyCons(d, "twitter.com", ["x.com"]);
    MatchesAnyCons(d, "linkedin.com", []);
    MatchesAnyCons(d, "tiktok.com", []);
    MatchesAnyCons(d, "youtu.be", []);
    MatchesAnyCons(d, "youtube.com", ["youtu.be"]);
  }

  /** The if/elif chain is the platform order read first-match-wins on the
      lower-cased netloc: the result is the first platform one of whose
      substrings occurs, and `None` exactly when no platform's does. */
  lemma DetectIsFirstHit(netloc: string)
    ensures var d, k := Lower(netloc), FirstHit(Lower(netloc), Order);
      DetectPlatform(netloc) == (if k < |Order| then Some(Order[k]) else None)
    ensures DetectPlatform(netloc).None? <==> forall q: Platform :: !Hit(Lower(netloc), q)
  {
    var d := Lower(netloc);
    HitUnfold(d);
    var k := FirstHit(d, Order);
    assert Order[0] == Instagram && Order[1] == Facebook && Order[2] == Twitter;
    assert Order[3] == LinkedIn && Order[4] == TikTok && Order[5] == YouTube;
    if k < |Order| {
      assert forall j :: 0 <= j < k ==> !Hit(d, Order[j]);
      assert Hit(d, Order[k]);
    } else {
      assert forall j :: 0 <= j < 6 ==> !Hit(d, Order[j]);
      forall q: Platform ensures !Hit(d, q) {
        assert q == Order[q.Rank()];
      }
    }
  }

  /** Substring matching is loose: any netloc containing `x.com`, such as
      `box.com`, is taken for Twitter. */
  lemma BoxIsTwitter()
    ensures DetectPlatform("box.com") == Some(Twitter)
  {
    var d := Lower("box.com");
    assert d == "box.com";
    assert OccursAt(d, "x.com", 2);
    assert !Contains(d, "fb.com") by {
      assert d[..6] != "fb.com" && d[1..7] != "fb.com" by {
        assert d[0] == 'b' && d[1] == 'o';
      }
    }
  }

  /** `extract_username`: the first `/`-separated segment of the path with
      its outer slashes stripped, for the three platforms that keep the
      username there; `None` for the others. */
  function ExtractUsername(path: string, platform: Platform): (r: Option<string>)
    ensures r.Some? <==> platform.HasUsernamePath()
    ensures r.Some? ==> var p := StripChar(path, '/');
      && StartsWith(p, r.value) && '/' !in r.value
      && (|r.value| < |p| ==> p[|r.value|] == '/')
  {
    var p := StripChar(path, '/');
    if platform.HasUsernamePath() then
      SplitHead(p, '/');
      Some(Split(p, '/')[0])
    else None
  }

  /** The first piece of a split is the text up to the first separator. */
  lemma {:induction false} SplitHead(s: string, sep: char)
    ensures var h := Split(s, sep)[0];
      && IsPrefix(h, s) && sep !in h && (|h| < |s| ==> s[|h|] == sep)
    decreases |s|
  {
    if |s| > 0 {
      SplitHead(s[1..], sep);
    }
  }

  /** A path that is only slashes (or empty) yields the empty username. */
  lemma EmptyPathEmptyUsername(path: string, platform: Platform)
    requires platform.HasUsernamePath()
    requires forall i :: 0 <= i < |path| ==> path[i] == '/'
    ensures ExtractUsername(path, platform) == Some("")
  {
  }

  /** The profile URL `f"https://instagram.com/{username}"` that
      `scrape_instagram` builds leads back to the same username, with or
      without a trailing slash. */
  lemma UsernameRoundTrip(u: string, platform: Platform)
    requires platform.HasUsernamePath()
    requires u != "" && '/' !in u
    ensures ExtractUsername("/" + u, platform) == Some(u)
    ensures ExtractUsername("/" + u + "/", platform) == Some(u)
  {
    StripLeadingSlash(u);
    StripBothSlashes(u);
    SplitHead(u, '/');
  }

  lemma NoSlashStrip(u: string)
    requires u != "" && '/' !in u
    ensures LStripChar(u, '/') == u && RStripChar(u, '/') == u
  {
    assert u[0] in u;
    assert u[|u| - 1] in u;
  }

  lemma StripLeadingSlash(u: string)
    requires u != "" && '/' !in u
    ensures StripChar("/" + u, '/') == u
  {
    NoSlashStrip(u);
    assert ("/" + u)[1..] == u;
  }

  lemma StripBothSlashes(u: string)
    requires u != "" && '/' !in u
    ensures StripChar("/" + u + "/", '/') == u
  {
    NoSlashStrip(u);
    var v := u + "/";
    assert ("/" + u + "/")[1..] == v;
    assert v[0] == u[0];
    assert LStripChar(v, '/') == v;
    assert v[..|v| - 1] == u;
  }

  // ---------------------------------------------------------------------
  // scrape / get_scraped_text
  // ---------------------------------------------------------------------

  const UnsupportedError: string := "Unsupported platform or invalid URL"
  const UsernameError: string := "Could not extract username from URL"
  const PostSeparator: string := "\n\n---\n\n"

  /** The network fetchers of the three supported platforms. */
  datatype Fetchers = Fetchers(
    instagramProfile: string -> Option<SocialProfile>,
    instagramPosts: (string, int) -> seq<SocialPost>,
    facebookPage: string -> Option<SocialProfile>,
    twitterProfile: string -> Option<SocialProfile>)

  /** The dictionary `scrape` returns: an `error` entry, or the platform and
      username with the profile (and, for Instagram, the posts) when the
      fetchers delivered them. `to_dict` copies are left out. */
  datatype ScrapeResult =
    | Error(message: string)
    | Found(platform: Platform, username: string, profile: Option<SocialProfile>, posts: Option<seq<SocialPost>>)
  {
    /** The `profile_text` entry, when present. */
    function ProfileTextEntry(): Option<string> {
      if Found? && profile.Some? then Some(ProfileText(profile.value)) else None
    }

    /** The `posts_text` entry, when present. */
    function PostsTextEntry(): Option<string> {
      if Found? && posts.Some? then Some(Join(PostSeparator, PostTexts(posts.value))) else None
    }
  }

  function PostTexts(posts: seq<SocialPost>): (r: seq<string>)
    ensures |r| == |posts|
    ensures forall i :: 0 <= i < |posts| ==> r[i] == PostText(posts[i])
  {
    seq(|posts|, i requires 0 <= i < |posts| => PostText(posts[i]))
  }

  /** `scrape(url, include_posts, max_posts)`; `parse` stands for
      `urlparse`. */
  function Scrape(url: string, parse: string -> Parsed, includePosts: bool, maxPosts: int, fetch: Fetchers): (r: ScrapeResult)
    ensures DetectPlatform(parse(url).netloc).None? ==> r == Error(UnsupportedError)
    ensures DetectPlatform(parse(url).netloc).Some? ==>
      var pl := DetectPlatform(parse(url).netloc).value;
      var user := ExtractUsername(parse(url).path, pl);
      if user.None? || user.value == "" then r == Error(UsernameError)
      else
        && r.Found? && r.platform == pl && r.username == user.value
        && r.profile == (match pl
            case Instagram => fetch.instagramProfile(user.value)
            case Facebook => fetch.facebookPage(url)
            case _ => fetch.twitterProfile(user.value))
        && (r.posts.Some? <==> pl == Instagram && r.profile.Some? && includePosts)
        && (r.posts.Some? ==> r.posts.value == fetch.instagramPosts(user.value, maxPosts))
  {
    var platform := DetectPlatform(parse(url).netloc);
    if platform.None? then Error(UnsupportedError)
    else
      var username := ExtractUsername(parse(url).path, platform.value);
      if username.None? || username.value == "" then Error(UsernameError)
      else
        var name := username.value;
        match platform.value
        case Instagram =>
          var profile := fetch.instagramProfile(name);
          Found(Instagram, name, profile,
            if profile.Some? && includePosts then Some(fetch.instagramPosts(name, maxPosts)) else None)
        case Facebook => Found(Facebook, name, fetch.facebookPage(url), None)
        case Twitter => Found(Twitter, name, fetch.twitterProfile(name), None)
        case LinkedIn => Found(LinkedIn, name, None, None)
        case TikTok => Found(TikTok, name, None, None)
        case YouTube => Found(YouTube, name, None, None)
  }

  /** A profile URL of a supported platform reaches the fetcher with the
      username it was built from. */
  lemma ProfileUrlReachesFetcher(url: string, parse: string -> Parsed, u: string, includePosts: bool, maxPosts: int, fetch: Fetchers)
    requires DetectPlatform(parse(url).netloc).Some?
    requires DetectPlatform(parse(url).netloc).value.HasUsernamePath()
    requires u != "" && '/' !in u && parse(url).path == "/" + u
    ensures var r := Scrape(url, parse, includePosts, maxPosts, fetch);
      r.Found? && r.username == u
  {
    UsernameRoundTrip(u, DetectPlatform(parse(url).netloc).value);
  }

  const ProfileHeader: string := "=== PROFILE ==="
  const PostsHeader: string := "\n=== POSTS ==="

  /** `get_scraped_text` on a dictionary holding the given `profile_text`
      and `posts_text` entries. */
  function GetScrapedText(profileText: Option<string>, postsText: Option<string>): (r: string)
    ensures profileText.None? && postsText.None? ==> r == ""
  {
    var parts := (if profileText.Some? then [ProfileHeader, profileText.value] else [])
      + (if postsText.Some? then [PostsHeader, postsText.value] else []);
    Join("\n", parts)
  }

  /** The sections come profile first, each behind its header: the text
      starts with the profile header exactly when a profile text is
      present, and ends with the posts text behind its header when that is
      present. */
  lemma ScrapedTextSections(profileText: Option<string>, postsText: Option<string>)
    ensures StartsWith(GetScrapedText(profileText, postsText), ProfileHeader) <==> profileText.Some?
    ensures profileText.Some? && postsText.None? ==>
      GetScrapedText(profileText, postsText) == ProfileHeader + "\n" + profileText.value
    ensures profileText.None? && postsText.Some? ==>
      GetScrapedText(profileText, postsText) == PostsHeader + "\n" + postsText.value
    ensures profileText.Some? && postsText.Some? ==>
      GetScrapedText(profileText, postsText)
        == ProfileHeader + "\n" + profileText.value + "\n" + PostsHeader + "\n" + postsText.value
  {
    var r := GetScrapedText(profileText, postsText);
    if profileText.Some? && postsText.Some? {
      var a, b := profileText.value, postsText.value;
      JoinFour(ProfileHeader, a, PostsHeader, b);
      assert r[..|ProfileHeader|] == ProfileHeader;
    } else if profileText.Some? {
      JoinTwo(ProfileHeader, profileText.value);
      assert r[..|ProfileHeader|] == ProfileHeader;
    } else if postsText.Some? {
      JoinTwo(PostsHeader, postsText.value);
      assert r[0] == '\n';
    }
  }

  lemma JoinTwo(a: string, b: string)
    ensures Join("\n", [] + [a, b]) == a + "\n" + b
    ensures Join("\n", [a, b] + []) == a + "\n" + b
  {
    assert [] + [a, b] == [a, b] + [] == [a, b];
    assert [a, b][1..] == [b];
  }

  lemma JoinFour(a: string, b: string, c: string, d: string)
    ensures Join("\n", [a, b] + [c, d]) == a + "\n" + b + "\n" + c + "\n" + d
  {
    var xs := [a, b] + [c, d];
    assert xs[1..] == [b, c, d];
    assert xs[1..][1..] == [c, d];
    assert xs[1..][1..][1..] == [d];
    var cd := c + "\n" + d;
    assert Join("\n", xs[1..][1..]) == cd;
    assert Join("\n", xs[1..]) == b + "\n" + cd;
    assert Join("\n", xs) == a + "\n" + (b + "\n" + cd);
  }
}
