/** The Reddit scraper node: the URL it opens, the prompt it hands to Claude,
    the command line it runs, and how it reads back what the run saved. */
module Reddit {
  import opened Wrappers
  import opened Strings
  import opened Json
  import Execute

  // ---------------------------------------------------------------------------
  // build_reddit_url
  // ---------------------------------------------------------------------------

  /** `s.strip().lstrip("/r/")`: `lstrip` drops every leading '/' and 'r',
      whatever their order. */
  function SubredditName(source: string): string {
    TrimStart(Strip(source), {'/', 'r'})
  }

  /** `s.strip().lstrip("/u/").lstrip("u/")`. */
  function UserName(source: string): string {
    TrimStart(TrimStart(Strip(source), {'/', 'u'}), {'u', '/'})
  }

  /** Only "top" and "controversial" listings take a time filter. */
  predicate TakesTimeFilter(sortBy: string) {
    sortBy == "top" || sortBy == "controversial"
  }

  /** A listing of subreddit `name` in sort order `sortBy`. */
  function ListingUrl(name: string, sortBy: string, timeFilter: string): string {
    ListingAt("https://reddit.com/r/" + name, sortBy, timeFilter, TakesTimeFilter(sortBy))
  }

  /** The listing under `site`, with the time filter when `filtered`. */
  function ListingAt(site: string, sortBy: string, timeFilter: string, filtered: bool): string {
    var prefix := site + "/" + sortBy + "/";
    if filtered then prefix + "?t=" + timeFilter else prefix
  }

  function RedditUrl(sourceType: string, source: string, sortBy: string, timeFilter: string): (r: string)
    ensures sourceType != "subreddit" && sourceType != "search" && sourceType != "user" ==> r == source
  {
    if sourceType == "url" then source
    else if sourceType == "subreddit" then ListingUrl(SubredditName(source), sortBy, timeFilter)
    else if sourceType == "search" then "https://reddit.com/search/?q=" + source
    else if sourceType == "user" then "https://reddit.com/user/" + UserName(source)
    else source
  }

  lemma PrefixAndSuffix(a: string, b: string)
    ensures StartsWith(a + b, a) && EndsWith(a + b, b)
  {
    assert (a + b)[..|a|] == a;
    EndsWithAppend(a, b);
  }

  /** A listing URL names the subreddit and the sort order, and ends with the
      time filter exactly when the sort order takes one. */
  lemma ListingUrlShape(name: string, sortBy: string, timeFilter: string)
    ensures var r := ListingUrl(name, sortBy, timeFilter);
      && StartsWith(r, "https://reddit.com/r/" + name + "/" + sortBy + "/")
      && (TakesTimeFilter(sortBy) ==> EndsWith(r, "/?t=" + timeFilter))
      && (!TakesTimeFilter(sortBy) ==> EndsWith(r, "/" + sortBy + "/"))
  {
    ListingAtShape("https://reddit.com/r/" + name, sortBy, timeFilter, TakesTimeFilter(sortBy));
  }

  lemma ListingAtShape(site: string, sortBy: string, timeFilter: string, filtered: bool)
    ensures var r := ListingAt(site, sortBy, timeFilter, filtered);
      && StartsWith(r, site + "/" + sortBy + "/")
      && (filtered ==> EndsWith(r, "/?t=" + timeFilter))
      && (!filtered ==> EndsWith(r, "/" + sortBy + "/"))
  {
    var prefix := site + "/" + sortBy + "/";
    var r := ListingAt(site, sortBy, timeFilter, filtered);
    if filtered {
      assert r == prefix + ("?t=" + timeFilter);
      PrefixAndSuffix(prefix, "?t=" + timeFilter);
      assert r == (site + "/" + sortBy) + ("/?t=" + timeFilter);
      PrefixAndSuffix(site + "/" + sortBy, "/?t=" + timeFilter);
    } else {
      assert r == prefix && r == site + ("/" + sortBy + "/");
      PrefixAndSuffix(site, "/" + sortBy + "/");
      PrefixAndSuffix(prefix, "");
      assert prefix + "" == prefix;
    }
  }

  /** The three kinds of URL the node builds from a name or query. */
  lemma UrlKinds(sourceType: string, source: string, sortBy: string, timeFilter: string)
    ensures sourceType == "subreddit" ==>
      RedditUrl(sourceType, source, sortBy, timeFilter) == ListingUrl(SubredditName(source), sortBy, timeFilter)
    ensures sourceType == "search" ==>
      RedditUrl(sourceType, source, sortBy, timeFilter) == "https://reddit.com/search/?q=" + source
    ensures sourceType == "user" ==>
      RedditUrl(sourceType, source, sortBy, timeFilter) == "https://reddit.com/user/" + UserName(source)
  {
  }

  /** `lstrip` with a two-character set: what remains is a suffix, does not
      start with either character, and only those were dropped. */
  lemma TrimStartTwo(t: string, chars: set<char>, a: char, b: char)
    requires chars == {a, b}
    ensures var n := TrimStart(t, chars);
      && n == t[|t| - |n|..]
      && (|n| == 0 || (n[0] != a && n[0] != b))
      && (forall i :: 0 <= i < |t| - |n| ==> t[i] == a || t[i] == b)
  {
  }

  /** The cleaned subreddit name is the stripped source less a run of leading
      '/' and 'r' characters, and it does not start with either. */
  lemma SubredditNameShape(source: string)
    ensures var t := Strip(source); var n := SubredditName(source);
      && n == t[|t| - |n|..]
      && (|n| == 0 || (n[0] != '/' && n[0] != 'r'))
      && (forall i :: 0 <= i < |t| - |n| ==> t[i] == '/' || t[i] == 'r')
  {
    var t := Strip(source);
    TrimStartTwo(t, {'/', 'r'}, '/', 'r');
    assert SubredditName(source) == TrimStart(t, {'/', 'r'});
  }

  /** `lstrip` with a set of characters already gone changes nothing. */
  lemma TrimStartAgain(s: string, chars: set<char>, fewer: set<char>)
    requires fewer <= chars
    ensures TrimStart(TrimStart(s, chars), fewer) == TrimStart(s, chars)
  {
  }

  /** The second `lstrip("u/")` never removes anything: the first one already
      dropped every leading 'u' and '/'. */
  lemma UserNameOnce(source: string)
    ensures UserName(source) == TrimStart(Strip(source), {'/', 'u'})
  {
    assert {'u', '/'} == {'/', 'u'};
    TrimStartAgain(Strip(source), {'/', 'u'}, {'u', '/'});
  }

  /** What the cleaning evidently means: drop a leading "/r/" (or "/u/"), or
      else a leading "r/" (or "u/"), and keep the name itself whole. */
  function CleanName(t: string, letter: char): (n: string)
    ensures |t| - 3 <= |n| <= |t| && n == t[|t| - |n|..]
  {
    if StartsWith(t, ['/', letter, '/']) then t[3..]
    else if StartsWith(t, [letter, '/']) then t[2..]
    else t
  }

  /** The URL with the intended cleaning in place of the character `lstrip`. */
  function IntendedUrl(sourceType: string, source: string, sortBy: string, timeFilter: string): (r: string)
    ensures sourceType != "subreddit" && sourceType != "user" ==> r == RedditUrl(sourceType, source, sortBy, timeFilter)
  {
    if sourceType == "subreddit" then ListingUrl(CleanName(Strip(source), 'r'), sortBy, timeFilter)
    else if sourceType == "user" then "https://reddit.com/user/" + CleanName(Strip(source), 'u')
    else RedditUrl(sourceType, source, sortBy, timeFilter)
  }

  /** As written, a subreddit whose name starts with 'r' loses it: "rust"
      opens r/ust. */
  lemma RustLosesLetter(sourceType: string, source: string, sortBy: string, timeFilter: string)
    requires sourceType == "subreddit" && source == "rust"
    ensures RedditUrl(sourceType, source, sortBy, timeFilter) == ListingUrl("ust", sortBy, timeFilter)
  {
    assert source[0] == 'r' && source[1] == 'u' && source[|source| - 1] == 't';
    StrippedAlready(source);
    assert source[1..] == "ust";
    TrimStartOne(source, {'/', 'r'});
    UrlKinds(sourceType, source, sortBy, timeFilter);
  }

  /** As written, a user name starting with 'u' loses it: "ulysses" opens
      user/lysses. */
  lemma UserLosesLetter(sourceType: string, source: string, sortBy: string, timeFilter: string)
    requires sourceType == "user" && source == "ulysses"
    ensures RedditUrl(sourceType, source, sortBy, timeFilter) == "https://reddit.com/user/lysses"
  {
    assert source[0] == 'u' && source[1] == 'l' && source[|source| - 1] == 's';
    StrippedAlready(source);
    var rest := source[1..];
    assert rest == "lysses";
    TrimStartOne(source, {'/', 'u'});
    TrimStartNone(rest, {'u', '/'});
    UrlKinds(sourceType, source, sortBy, timeFilter);
  }

  lemma TrimStartNone(s: string, chars: set<char>)
    requires |s| == 0 || s[0] !in chars
    ensures TrimStart(s, chars) == s
  {
  }

  lemma StrippedAlready(s: string)
    requires |s| > 0 && !IsSpace(s[0]) && !IsSpace(s[|s| - 1])
    ensures Strip(s) == s
  {
  }

  /** One leading character of `chars` goes, and `lstrip` stops at the next. */
  lemma TrimStartOne(s: string, chars: set<char>)
    requires |s| > 1 && s[0] in chars && s[1] !in chars
    ensures TrimStart(s, chars) == s[1..]
  {
  }

  /** The intended cleaning keeps a bare name, and removes exactly the
      "/r/" or "r/" prefix in front of one. */
  lemma IntendedKeepsName(name: string, letter: char)
    requires |name| > 0 && name[0] != '/'
    requires !StartsWith(name, [letter, '/'])
    ensures CleanName(name, letter) == name
    ensures CleanName(['/', letter, '/'] + name, letter) == name
    ensures CleanName([letter, '/'] + name, letter) == name
  {
    var long := ['/', letter, '/'] + name;
    var short := [letter, '/'] + name;
    assert long[..3] == ['/', letter, '/'] && long[3..] == name;
    assert short[..2] == [letter, '/'] && short[2..] == name;
    assert short[1] == '/' && name[0] != '/';
  }

  /** With the intended cleaning, "rust" opens r/rust. */
  lemma IntendedRust(sourceType: string, source: string, sortBy: string, timeFilter: string)
    requires sourceType == "subreddit" && source == "rust"
    ensures IntendedUrl(sourceType, source, sortBy, timeFilter) == ListingUrl(source, sortBy, timeFilter)
  {
    assert source[0] != ' ' && source[|source| - 1] != ' ';
    StrippedAlready(source);
    assert source[1] == 'u';
    IntendedKeepsName(source, 'r');
  }

  // ---------------------------------------------------------------------------
  // build_scraping_prompt
  // ---------------------------------------------------------------------------

  datatype ScrapeParams = ScrapeParams(
    url: string, scrapeMode: string, maxItems: int, includeMetadata: bool, maxCommentDepth: int)

  predicate ScrapesPosts(mode: string) { mode == "posts" || mode == "both" }
  predicate ScrapesComments(mode: string) { mode == "comments" || mode == "both" }

  /** The fixed wording of the prompt: every run of appended lines that holds
      no parameter. The prompt functions take the wording as an argument, so
      that each lemma below holds for any wording, the node's own
      (`SourceWording`) included. */
  datatype Wording = Wording(
    commandLead: string, instructions: string, postFields: string, postMetadata: string,
    pickPost: string, eachPost: string, depthLead: string, commentFields: string,
    subredditFields: string, dataFormat: string, folderLead: string, summaryRequest: string,
    closing: string)

  const SourceWording: Wording := Wording(
    "Use the Playwright MCP to scrape Reddit data from: ",
    "## Scraping Instructions:\n" + "1. Navigate to the URL\n"
    + "2. Wait for the page to load completely\n" + "3. Scrape the following data:\n",
    "- Title\n" + "- URL/link\n" + "- Subreddit\n",
    "- Author username\n" + "- Score/upvotes\n" + "- Number of comments\n" + "- Post time\n"
    + "- Awards (if any)\n" + "- Post flair\n" + "- Whether it's pinned/stickied\n",
    "- Find the post with the most comments (at least 20+ comments)\n"
    + "- Click into that specific post to view the full comment thread\n",
    "- Click into each post\n",
    "- Scrape ALL visible comments up to ",
    "- For each comment, capture:\n" + "  * Full comment text (don't truncate)\n"
    + "  * Author username\n" + "  * Score/upvotes\n" + "  * Timestamp\n"
    + "  * Comment ID (if available)\n" + "  * Parent comment ID (to preserve threading)\n"
    + "  * Depth level (0=top-level, 1=reply, 2=reply-to-reply, etc.)\n"
    + "  * Awards (if any)\n" + "  * Whether it's highlighted/pinned\n"
    + "- Expand 'Continue this thread' links to get deeper comments\n"
    + "- Include deleted/removed comments with appropriate markers\n"
    + "- Preserve the exact thread hierarchy in nested structure\n",
    "- Subreddit name and description\n" + "- Member count\n" + "- Rules\n"
    + "- Moderators (if visible)\n" + "- Pinned posts\n" + "- Sidebar information\n",
    "- Structure the data as clean JSON with this format:\n"
    + "```json\n"
    + "{\n"
    + "  \"post\": {\n"
    + "    \"title\": \"...\",\n"
    + "    \"url\": \"...\",\n"
    + "    \"author\": \"...\",\n"
    + "    \"score\": 123,\n"
    + "    \"content\": \"...\",\n"
    + "    \"num_comments\": 45\n"
    + "  },\n"
    + "  \"comments\": [\n"
    + "    {\n"
    + "      \"id\": \"abc123\",\n"
    + "      \"parent_id\": null,\n"
    + "      \"author\": \"username\",\n"
    + "      \"text\": \"Full comment text...\",\n"
    + "      \"score\": 10,\n"
    + "      \"timestamp\": \"2 hours ago\",\n"
    + "      \"depth\": 0,\n"
    + "      \"awards\": 1,\n"
    + "      \"is_highlighted\": false,\n"
    + "      \"replies\": [\n"
    + "        {\n"
    + "          \"id\": \"def456\",\n"
    + "          \"parent_id\": \"abc123\",\n"
    + "          \"author\": \"another_user\",\n"
    + "          \"text\": \"Reply text...\",\n"
    + "          \"score\": 5,\n"
    + "          \"timestamp\": \"1 hour ago\",\n"
    + "          \"depth\": 1,\n"
    + "          \"replies\": []\n"
    + "        }\n"
    + "      ]\n"
    + "    }\n"
    + "  ],\n"
    + "  \"metadata\": {\n"
    + "    \"total_comments_scraped\": 45,\n"
    + "    \"max_depth_reached\": 3,\n"
    + "    \"scraped_at\": \"2024-06-16T16:00:00Z\"\n"
    + "  }\n"
    + "}\n"
    + "```\n"
    + "- Use consistent field names\n"
    + "- Handle missing data gracefully (use null)\n"
    + "- Include a summary count of items scraped\n"
    + "- If any errors occur, include them in an 'errors' field\n",
    "Save all scraped data to a file named 'reddit_data.json' in: ",
    "Also create a 'scraping_summary.txt' file with:\n" + "- Post title and URL\n"
    + "- Total comments scraped\n" + "- Top 5 comments by score (with author and score)\n"
    + "- Most controversial comments (lowest/negative scores)\n" + "- Thread depth statistics\n"
    + "- Key discussion themes or topics mentioned\n" + "- Any issues encountered\n"
    + "- Timestamp of scraping\n",
    "\nDo not create files elsewhere.\n")

  function CommandSection(url: string, w: Wording): string {
    "# Command\n" + (w.commandLead + url + "\n\n" + w.instructions)
  }

  function PostsSection(maxItems: int, includeMetadata: bool, w: Wording): string {
    "\n### Posts (first " + (IntToString(maxItems) + " items):\n" + w.postFields
    + (if includeMetadata then w.postMetadata else ""))
  }

  function DepthLine(maxCommentDepth: int, w: Wording): string {
    w.depthLead + IntToString(maxCommentDepth) + " levels deep\n"
  }

  /** In "comments" mode the run picks the most discussed of the first posts;
      in "both" it visits every scraped post. */
  function CommentsHead(mode: string, maxItems: int, w: Wording): string {
    if mode == "comments" then
      "\n### Comments " + ("(from first " + IntToString(maxItems) + " posts):\n" + w.pickPost)
    else
      "\n### Comments " + ("(for each scraped post):\n" + w.eachPost)
  }

  function CommentsSection(mode: string, maxItems: int, maxCommentDepth: int, w: Wording): string {
    CommentsHead(mode, maxItems, w) + (DepthLine(maxCommentDepth, w) + w.commentFields)
  }

  function SubredditSection(w: Wording): string {
    "\n### Subreddit Metadata:\n" + w.subredditFields
  }

  function DataSection(w: Wording): string {
    "\n## Data Processing:\n" + w.dataFormat
  }

  function FolderLine(outputFolder: string, w: Wording): string {
    w.folderLead + outputFolder + "\n"
  }

  function OutputSection(outputFolder: string, w: Wording): string {
    "\n# Output Instructions\n" + (FolderLine(outputFolder, w) + (w.summaryRequest + w.closing))
  }

  function Optional(present: bool, section: string): seq<string> {
    if present then [section] else []
  }

  /** The sections of the prompt, in order; each stands for the consecutive
      appends the source makes for it. */
  function PromptParts(p: ScrapeParams, outputFolder: string, memory: string, w: Wording): seq<string> {
    Optional(|memory| > 0, Execute.MemorySection(memory))
    + [CommandSection(p.url, w)]
    + Optional(ScrapesPosts(p.scrapeMode), PostsSection(p.maxItems, p.includeMetadata, w))
    + Optional(ScrapesComments(p.scrapeMode), CommentsSection(p.scrapeMode, p.maxItems, p.maxCommentDepth, w))
    + Optional(p.scrapeMode == "metadata", SubredditSection(w))
    + [DataSection(w), OutputSection(outputFolder, w)]
  }

  function ScrapingPrompt(p: ScrapeParams, outputFolder: string, memory: string, w: Wording): string {
    Concat(PromptParts(p, outputFolder, memory, w))
  }

  /** The prompt the node sends, in the node's own wording. */
  function SourcePrompt(p: ScrapeParams, outputFolder: string, memory: string): string {
    ScrapingPrompt(p, outputFolder, memory, SourceWording)
  }

  /** `build_scraping_prompt`: the sections are appended in turn, then joined. */
  method BuildScrapingPrompt(p: ScrapeParams, outputFolder: string, memory: string, w: Wording)
    returns (prompt: string)
    ensures prompt == ScrapingPrompt(p, outputFolder, memory, w)
  {
    var parts: seq<string> := [];
    if |memory| > 0 {
      parts := parts + [Execute.MemorySection(memory)];
    }
    assert parts == Optional(|memory| > 0, Execute.MemorySection(memory));
    parts := parts + [CommandSection(p.url, w)];
    parts := AppendIf(parts, ScrapesPosts(p.scrapeMode), PostsSection(p.maxItems, p.includeMetadata, w));
    parts := AppendIf(parts, ScrapesComments(p.scrapeMode),
                      CommentsSection(p.scrapeMode, p.maxItems, p.maxCommentDepth, w));
    parts := AppendIf(parts, p.scrapeMode == "metadata", SubredditSection(w));
    parts := parts + [DataSection(w), OutputSection(outputFolder, w)];
    prompt := Concat(parts);
  }

  /** One `if …: parts.append(section)`. */
  method AppendIf(parts: seq<string>, present: bool, section: string) returns (r: seq<string>)
    ensures r == parts + Optional(present, section)
  {
    r := parts;
    if present {
      r := r + [section];
    } else {
      assert parts + [] == parts;
    }
  }

  function OptionalText(present: bool, section: string): string {
    if present then section else ""
  }

  /** The prompt is the chosen sections, in order, one after the other. */
  lemma PromptText(p: ScrapeParams, outputFolder: string, memory: string, w: Wording)
    ensures ScrapingPrompt(p, outputFolder, memory, w)
         == OptionalText(|memory| > 0, Execute.MemorySection(memory))
          + CommandSection(p.url, w)
          + OptionalText(ScrapesPosts(p.scrapeMode), PostsSection(p.maxItems, p.includeMetadata, w))
          + OptionalText(ScrapesComments(p.scrapeMode), CommentsSection(p.scrapeMode, p.maxItems, p.maxCommentDepth, w))
          + OptionalText(p.scrapeMode == "metadata", SubredditSection(w))
          + DataSection(w) + OutputSection(outputFolder, w)
  {
    JoinSections(|memory| > 0, Execute.MemorySection(memory), CommandSection(p.url, w),
                 ScrapesPosts(p.scrapeMode), PostsSection(p.maxItems, p.includeMetadata, w),
                 ScrapesComments(p.scrapeMode), CommentsSection(p.scrapeMode, p.maxItems, p.maxCommentDepth, w),
                 p.scrapeMode == "metadata", SubredditSection(w),
                 DataSection(w), OutputSection(outputFolder, w));
  }

  lemma JoinSections(c1: bool, x1: string, x2: string, c3: bool, x3: string, c4: bool, x4: string,
                     c5: bool, x5: string, x6: string, x7: string)
    ensures Concat(Optional(c1, x1) + [x2] + Optional(c3, x3) + Optional(c4, x4) + Optional(c5, x5) + [x6, x7])
         == OptionalText(c1, x1) + x2 + OptionalText(c3, x3) + OptionalText(c4, x4) + OptionalText(c5, x5) + x6 + x7
  {
    var o1 := Optional(c1, x1);
    var o3 := Optional(c3, x3);
    var o4 := Optional(c4, x4);
    var o5 := Optional(c5, x5);
    ConcatAppend(o1 + [x2] + o3 + o4 + o5, [x6, x7]);
    ConcatAppend(o1 + [x2] + o3 + o4, o5);
    ConcatAppend(o1 + [x2] + o3, o4);
    ConcatAppend(o1 + [x2], o3);
    ConcatAppend(o1, [x2]);
    Concat2(x6, x7);
    Concat2(x2, "");
    OptionalConcat(c1, x1);
    OptionalConcat(c3, x3);
    OptionalConcat(c4, x4);
    OptionalConcat(c5, x5);
  }

  lemma OptionalConcat(present: bool, section: string)
    ensures Concat(Optional(present, section)) == OptionalText(present, section)
  {
    Concat2(section, "");
  }

  /** A character that tells the sections apart: the fifth of the two that
      open with '#', else the first that varies among those opening with a
      new line. */
  function Kind(x: string): char {
    if |x| < 6 then '?'
    else if x[0] == '#' then x[4]
    else if x[2] == ' ' then 'O'
    else if x[3] == ' ' then 'D'
    else x[5]
  }

  lemma KindOf(head: string, rest: string)
    requires |head| >= 6
    ensures Kind(head + rest) == Kind(head)
  {
  }

  /** The kinds of the fixed section openings. */
  lemma HeadKinds()
    ensures Kind("# Context/Memory\n") == 'n' && Kind("# Command\n") == 'm'
    ensures Kind("\n### Posts (first ") == 'P' && Kind("\n### Comments ") == 'C'
    ensures Kind("\n### Subreddit Metadata:\n") == 'S' && Kind("\n## Data Processing:\n") == 'D'
    ensures Kind("\n# Output Instructions\n") == 'O'
  {
  }

  lemma CommentsKind(mode: string, maxItems: int, maxCommentDepth: int, w: Wording)
    ensures Kind(CommentsSection(mode, maxItems, maxCommentDepth, w)) == 'C'
  {
    var h := CommentsHead(mode, maxItems, w);
    HeadKinds();
    if mode == "comments" {
      KindOf("\n### Comments ", "(from first " + IntToString(maxItems) + " posts):\n" + w.pickPost);
    } else {
      KindOf("\n### Comments ", "(for each scraped post):\n" + w.eachPost);
    }
    KindOf(h, DepthLine(maxCommentDepth, w) + w.commentFields);
  }

  /** What the kind of a section says about it. */
  predicate KindSays(x: string, p: ScrapeParams, memory: string) {
    || (x == Execute.MemorySection(memory) && Kind(x) == 'n')
    || Kind(x) == 'm'
    || (Kind(x) == 'P' && ScrapesPosts(p.scrapeMode))
    || (Kind(x) == 'C' && ScrapesComments(p.scrapeMode))
    || (Kind(x) == 'S' && p.scrapeMode == "metadata")
    || Kind(x) == 'D'
    || Kind(x) == 'O'
  }

  /** The kinds of every section, for the membership lemmas below. */
  lemma PartKinds(p: ScrapeParams, outputFolder: string, memory: string, w: Wording)
    ensures forall x :: x in PromptParts(p, outputFolder, memory, w) ==> KindSays(x, p, memory)
  {
    var ms := Execute.MemorySection(memory);
    var cmd := CommandSection(p.url, w);
    var ps := PostsSection(p.maxItems, p.includeMetadata, w);
    var cs := CommentsSection(p.scrapeMode, p.maxItems, p.maxCommentDepth, w);
    var ss := SubredditSection(w);
    var ds := DataSection(w);
    var os := OutputSection(outputFolder, w);
    var m := Optional(|memory| > 0, ms);
    var pp := Optional(ScrapesPosts(p.scrapeMode), ps);
    var cc := Optional(ScrapesComments(p.scrapeMode), cs);
    var sm := Optional(p.scrapeMode == "metadata", ss);
    assert PromptParts(p, outputFolder, memory, w) == m + [cmd] + pp + cc + sm + [ds, os];
    HeadKinds();
    forall x | x in PromptParts(p, outputFolder, memory, w)
      ensures KindSays(x, p, memory)
    {
      if x in m {
        var head := "# Context/Memory\n";
        assert x == ms == head + (memory + "\n\n");
        KindOf(head, memory + "\n\n");
      } else if x == cmd {
        KindOf("# Command\n", w.commandLead + p.url + "\n\n" + w.instructions);
      } else if x in pp {
        assert x == ps && ScrapesPosts(p.scrapeMode);
        PostsKind(p.maxItems, p.includeMetadata, w);
      } else if x in cc {
        assert x == cs && ScrapesComments(p.scrapeMode);
        CommentsKind(p.scrapeMode, p.maxItems, p.maxCommentDepth, w);
      } else if x in sm {
        assert x == ss && p.scrapeMode == "metadata";
        SubredditKind(w);
      } else if x == ds {
        KindOf("\n## Data Processing:\n", w.dataFormat);
      } else {
        assert x == os;
        KindOf("\n# Output Instructions\n", FolderLine(outputFolder, w) + (w.summaryRequest + w.closing));
      }
    }
  }

  lemma PostsKind(maxItems: int, includeMetadata: bool, w: Wording)
    ensures Kind(PostsSection(maxItems, includeMetadata, w)) == 'P'
  {
    HeadKinds();
    KindOf("\n### Posts (first ", IntToString(maxItems) + " items):\n" + w.postFields
      + (if includeMetadata then w.postMetadata else ""));
  }

  lemma SubredditKind(w: Wording)
    ensures Kind(SubredditSection(w)) == 'S'
  {
    HeadKinds();
    KindOf("\n### Subreddit Metadata:\n", w.subredditFields);
  }

  /** The memory block opens the prompt exactly when there is memory. */
  lemma MemoryPresent(p: ScrapeParams, outputFolder: string, memory: string, w: Wording)
    ensures Execute.MemorySection(memory) in PromptParts(p, outputFolder, memory, w) <==> |memory| > 0
  {
    PartKinds(p, outputFolder, memory, w);
    if |memory| == 0 {
      assert Kind(Execute.MemorySection(memory)) == '?';
    }
  }

  /** The posts section is asked for exactly in "posts" and "both" modes. */
  lemma PostsPresent(p: ScrapeParams, outputFolder: string, memory: string, w: Wording)
    ensures PostsSection(p.maxItems, p.includeMetadata, w) in PromptParts(p, outputFolder, memory, w)
        <==> ScrapesPosts(p.scrapeMode)
  {
    PartKinds(p, outputFolder, memory, w);
    PostsKind(p.maxItems, p.includeMetadata, w);
  }

  /** The comments section is asked for exactly in "comments" and "both" modes. */
  lemma CommentsPresent(p: ScrapeParams, outputFolder: string, memory: string, w: Wording)
    ensures CommentsSection(p.scrapeMode, p.maxItems, p.maxCommentDepth, w) in PromptParts(p, outputFolder, memory, w)
        <==> ScrapesComments(p.scrapeMode)
  {
    PartKinds(p, outputFolder, memory, w);
    CommentsKind(p.scrapeMode, p.maxItems, p.maxCommentDepth, w);
  }

  /** Subreddit metadata is asked for exactly in "metadata" mode. */
  lemma SubredditPresent(p: ScrapeParams, outputFolder: string, memory: string, w: Wording)
    ensures SubredditSection(w) in PromptParts(p, outputFolder, memory, w) <==> p.scrapeMode == "metadata"
  {
    PartKinds(p, outputFolder, memory, w);
    SubredditKind(w);
  }

  /** The comment depth asked for is the configured one, in either comment mode. */
  lemma CommentsDepth(mode: string, maxItems: int, maxCommentDepth: int, w: Wording)
    ensures Contains(CommentsSection(mode, maxItems, maxCommentDepth, w), DepthLine(maxCommentDepth, w))
  {
    var h := CommentsHead(mode, maxItems, w);
    var d := DepthLine(maxCommentDepth, w);
    assert CommentsSection(mode, maxItems, maxCommentDepth, w) == h + d + w.commentFields;
    ContainsAppend(h, d, w.commentFields);
  }

  /** The post metadata bullets follow the post fields only when asked for. */
  lemma PostsMetadata(maxItems: int, w: Wording)
    ensures PostsSection(maxItems, true, w) == PostsSection(maxItems, false, w) + w.postMetadata
    ensures EndsWith(PostsSection(maxItems, true, w), w.postMetadata)
    ensures EndsWith(PostsSection(maxItems, false, w), w.postFields)
  {
    var head := "\n### Posts (first " + (IntToString(maxItems) + " items):\n");
    assert PostsSection(maxItems, true, w) == (head + w.postFields) + w.postMetadata;
    assert PostsSection(maxItems, false, w) == head + w.postFields;
    EndsWithAppend(head + w.postFields, w.postMetadata);
    EndsWithAppend(head, w.postFields);
  }

  /** With a memory block, the prompt opens with it, followed by the command. */
  lemma PromptOpensWithMemory(p: ScrapeParams, outputFolder: string, memory: string, w: Wording)
    requires |memory| > 0
    ensures StartsWith(ScrapingPrompt(p, outputFolder, memory, w), Execute.MemorySection(memory) + "# Command\n")
  {
    PromptText(p, outputFolder, memory, w);
    OpeningShape(true, Execute.MemorySection(memory), "# Command\n",
                 w.commandLead + p.url + "\n\n", w.instructions, PromptRest(p, outputFolder, w));
  }

  /** Without one, the prompt opens with the command naming the URL. */
  lemma PromptOpensWithCommand(p: ScrapeParams, outputFolder: string, memory: string, w: Wording)
    requires |memory| == 0
    ensures StartsWith(ScrapingPrompt(p, outputFolder, memory, w), "# Command\n" + (w.commandLead + p.url + "\n\n"))
  {
    PromptText(p, outputFolder, memory, w);
    OpeningShape(false, Execute.MemorySection(memory), "# Command\n",
                 w.commandLead + p.url + "\n\n", w.instructions, PromptRest(p, outputFolder, w));
  }

  /** What follows the command section. */
  function PromptRest(p: ScrapeParams, outputFolder: string, w: Wording): string {
    OptionalText(ScrapesPosts(p.scrapeMode), PostsSection(p.maxItems, p.includeMetadata, w))
    + OptionalText(ScrapesComments(p.scrapeMode), CommentsSection(p.scrapeMode, p.maxItems, p.maxCommentDepth, w))
    + OptionalText(p.scrapeMode == "metadata", SubredditSection(w))
    + DataSection(w) + OutputSection(outputFolder, w)
  }

  lemma OpeningShape(present: bool, m: string, head: string, line: string, instr: string, rest: string)
    ensures present ==> StartsWith(OptionalText(present, m) + (head + (line + instr)) + rest, m + head)
    ensures !present ==> StartsWith(OptionalText(present, m) + (head + (line + instr)) + rest, head + line)
  {
    var t := OptionalText(present, m) + (head + (line + instr)) + rest;
    if present {
      assert t == (m + head) + ((line + instr) + rest);
      PrefixAndSuffix(m + head, (line + instr) + rest);
    } else {
      assert t == (head + line) + (instr + rest);
      PrefixAndSuffix(head + line, instr + rest);
    }
  }

  /** The prompt names the output folder for `reddit_data.json` and closes with
      the closing line. */
  lemma PromptClosing(p: ScrapeParams, outputFolder: string, memory: string, w: Wording)
    ensures Contains(ScrapingPrompt(p, outputFolder, memory, w), FolderLine(outputFolder, w))
    ensures EndsWith(ScrapingPrompt(p, outputFolder, memory, w), w.closing)
  {
    PromptText(p, outputFolder, memory, w);
    var front := OptionalText(|memory| > 0, Execute.MemorySection(memory))
      + CommandSection(p.url, w)
      + OptionalText(ScrapesPosts(p.scrapeMode), PostsSection(p.maxItems, p.includeMetadata, w))
      + OptionalText(ScrapesComments(p.scrapeMode), CommentsSection(p.scrapeMode, p.maxItems, p.maxCommentDepth, w))
      + OptionalText(p.scrapeMode == "metadata", SubredditSection(w))
      + DataSection(w);
    var o := OutputSection(outputFolder, w);
    var f := FolderLine(outputFolder, w);
    var head := "\n# Output Instructions\n";
    var tail := w.summaryRequest + w.closing;
    assert o == head + f + tail;
    ContainsAppend(head, f, tail);
    ContainsExtend(front, o, "", f);
    EndsWithAppend(w.summaryRequest, w.closing);
    EndsWithExtend(f, tail, w.closing);
    EndsWithExtend(head, f + tail, w.closing);
    EndsWithExtend(front, o, w.closing);
  }

  // ---------------------------------------------------------------------------
  // read_scraped_data
  // ---------------------------------------------------------------------------

  datatype Scraped = Scraped(data: Value, summary: string, count: nat)

  /** Python's `len()` on a decoded JSON value; anything else raises a
      `TypeError`. */
  function Len(v: Value): (r: Result<nat>)
    ensures r.Ok? <==> (v.Array? || v.Object? || v.Str?)
  {
    match v
    case Array(items) => Ok(|items|)
    case Object(fields) => Ok(|fields|)
    case Str(s) => Ok(|s|)
    case _ => Raised("object of type '" + TypeName(v) + "' has no len()")
  }

  /** The item count of `reddit_data.json`: a list counts its entries, a dict
      its "posts" (else its "data") entry, any other dict one item; any other
      JSON value counts nothing. */
  function ItemCount(v: Value): Result<nat> {
    match v
    case Array(items) => Ok(|items|)
    case Object(d) =>
      if "posts" in Keys(d) then Len(Get(d, "posts").value)
      else if "data" in Keys(d) then Len(Get(d, "data").value)
      else Ok(1)
    case _ => Ok(0)
  }

  function ReadError(message: string): Value {
    Object([("error", Str("Failed to read data file: " + message))])
  }

  /** The data and count once the data file has been looked at: `None` for a
      missing file, `Raised` for an unreadable or undecodable one. */
  function DataAndCount(dataFile: Option<Result<Value>>): (Value, nat) {
    match dataFile
    case None => (Object([]), 0)
    case Some(Raised(e)) => (ReadError(e), 0)
    case Some(Ok(v)) =>
      match ItemCount(v)
      case Ok(n) => (v, n)
      case Raised(e) => (ReadError(e), 0)
  }

  /** The summary file's stripped text; missing or unreadable leaves the default. */
  function SummaryText(summaryFile: Option<Result<string>>): string {
    if summaryFile.Some? && summaryFile.value.Ok? then Strip(summaryFile.value.value) else "No data found"
  }

  function ReadScraped(dataFile: Option<Result<Value>>, summaryFile: Option<Result<string>>): (r: Scraped) {
    var (data, count) := DataAndCount(dataFile);
    var summary := SummaryText(summaryFile);
    if count > 0 && StartsWith(summary, "No data") then
      Scraped(data, "Successfully scraped " + IntToString(count) + " items", count)
    else Scraped(data, summary, count)
  }

  /** `read_scraped_data`, taking what the two files hold instead of reading
      them. */
  method ReadScrapedData(dataFile: Option<Result<Value>>, summaryFile: Option<Result<string>>)
    returns (r: Scraped)
    ensures r == ReadScraped(dataFile, summaryFile)
  {
    var data, count := ReadDataFile(dataFile);
    var summary := "No data found";
    if summaryFile.Some? && summaryFile.value.Ok? {
      summary := Strip(summaryFile.value.value);
    }
    if count > 0 && StartsWith(summary, "No data") {
      summary := "Successfully scraped " + IntToString(count) + " items";
    }
    r := Scraped(data, summary, count);
  }

  /** The `reddit_data.json` half of `read_scraped_data`. */
  method ReadDataFile(dataFile: Option<Result<Value>>) returns (data: Value, count: nat)
    ensures (data, count) == DataAndCount(dataFile)
  {
    data := Object([]);
    count := 0;
    if dataFile.Some? {
      match dataFile.value
      case Raised(e) =>
        data := ReadError(e);
      case Ok(v) =>
        data := v;
        var n := ItemCount(v);
        if n.Ok? {
          count := n.value;
        } else {
          data := ReadError(n.error);
        }
    }
  }

  /** A nonzero count never comes with a summary that says there is no data;
      with a zero count the summary is whatever the file said (or the default). */
  lemma SummaryAgreesWithCount(dataFile: Option<Result<Value>>, summaryFile: Option<Result<string>>)
    ensures var r := ReadScraped(dataFile, summaryFile);
      && (r.count > 0 ==> !StartsWith(r.summary, "No data"))
      && (r.count == 0 ==> r.summary == SummaryText(summaryFile))
      && (r.count > 0 && !StartsWith(SummaryText(summaryFile), "No data") ==> r.summary == SummaryText(summaryFile))
  {
    var r := ReadScraped(dataFile, summaryFile);
    if r.count > 0 && StartsWith(SummaryText(summaryFile), "No data") {
      var s := "Successfully scraped " + IntToString(r.count) + " items";
      assert s == "Successfully scraped " + (IntToString(r.count) + " items");
      DifferentStarts(s, "Successfully scraped ", "No data", 0);
    }
  }

  /** The data and count of the result are those of the data file alone. */
  lemma ScrapedParts(dataFile: Option<Result<Value>>, summaryFile: Option<Result<string>>)
    ensures ReadScraped(dataFile, summaryFile).data == DataAndCount(dataFile).0
    ensures ReadScraped(dataFile, summaryFile).count == DataAndCount(dataFile).1
  {
  }

  /** No data file: the empty dict and no items. */
  lemma CountMissing(summaryFile: Option<Result<string>>)
    ensures ReadScraped(None, summaryFile).data == Object([])
    ensures ReadScraped(None, summaryFile).count == 0
    ensures ReadScraped(None, summaryFile).summary == SummaryText(summaryFile)
  {
    ScrapedParts(None, summaryFile);
  }

  /** A data file that cannot be read or decoded: the error as the data, no items. */
  lemma CountFailed(e: string, summaryFile: Option<Result<string>>)
    ensures ReadScraped(Some(Raised(e)), summaryFile).data == ReadError(e)
    ensures ReadScraped(Some(Raised(e)), summaryFile).count == 0
  {
    ScrapedParts(Some(Raised(e)), summaryFile);
  }

  /** A list counts its entries. */
  lemma CountList(items: seq<Value>, summaryFile: Option<Result<string>>)
    ensures ReadScraped(Some(Ok(Array(items))), summaryFile).data == Array(items)
    ensures ReadScraped(Some(Ok(Array(items))), summaryFile).count == |items|
  {
    ScrapedParts(Some(Ok(Array(items))), summaryFile);
  }

  /** A dict with "posts" counts that entry, whatever else it holds; an entry
      without a length turns the data into the error and the count into zero. */
  lemma CountPosts(d: Fields, summaryFile: Option<Result<string>>)
    requires "posts" in Keys(d)
    ensures var r := ReadScraped(Some(Ok(Object(d))), summaryFile);
      var n := Len(Get(d, "posts").value);
      && (n.Ok? ==> r.data == Object(d) && r.count == n.value)
      && (n.Raised? ==> r.data == ReadError(n.error) && r.count == 0)
  {
    ScrapedParts(Some(Ok(Object(d))), summaryFile);
  }

  /** Without "posts", a dict with "data" counts that entry instead. */
  lemma CountData(d: Fields, summaryFile: Option<Result<string>>)
    requires "posts" !in Keys(d) && "data" in Keys(d)
    ensures var r := ReadScraped(Some(Ok(Object(d))), summaryFile);
      var n := Len(Get(d, "data").value);
      && (n.Ok? ==> r.data == Object(d) && r.count == n.value)
      && (n.Raised? ==> r.data == ReadError(n.error) && r.count == 0)
  {
    ScrapedParts(Some(Ok(Object(d))), summaryFile);
  }

  /** Any other dict is one item. */
  lemma CountOtherDict(d: Fields, summaryFile: Option<Result<string>>)
    requires "posts" !in Keys(d) && "data" !in Keys(d)
    ensures ReadScraped(Some(Ok(Object(d))), summaryFile).data == Object(d)
    ensures ReadScraped(Some(Ok(Object(d))), summaryFile).count == 1
  {
    ScrapedParts(Some(Ok(Object(d))), summaryFile);
  }

  /** A scalar (number, string, boolean, null) is kept and counts nothing. */
  lemma CountScalar(v: Value, summaryFile: Option<Result<string>>)
    requires !v.Array? && !v.Object?
    ensures ReadScraped(Some(Ok(v)), summaryFile).data == v
    ensures ReadScraped(Some(Ok(v)), summaryFile).count == 0
  {
    ScrapedParts(Some(Ok(v)), summaryFile);
  }

  // ---------------------------------------------------------------------------
  // The scraper's command line
  // ---------------------------------------------------------------------------

  const ScrapeFlags: seq<string> :=
    ["claude", "-p", "--max-turns", "15", "--allowedTools", "mcp__playwright", "--dangerously-skip-permissions"]

  function ScrapeArgv(model: string): seq<string> {
    ScrapeFlags + (if model != "default" then ["--model", model] else [])
  }

  /** Fifteen turns, Playwright only, no confirmations; a model is named only
      when it is not "default". */
  lemma ScrapeArgvShape(model: string)
    ensures var a := ScrapeArgv(model);
      && a[..7] == ScrapeFlags
      && a[3] == "15" && a[5] == "mcp__playwright"
      && ("--model" in a <==> model != "default")
      && (model != "default" ==> a[7..] == ["--model", model])
      && (model == "default" ==> a == ScrapeFlags)
  {
    var a := ScrapeArgv(model);
    assert a[..7] == ScrapeFlags;
    assert "--model" !in ScrapeFlags;
    if model != "default" {
      assert a[7] == "--model";
    }
  }
}
