/** The timeline paging model of the Mastodon package: which feed a timeline
    shows, the pages fetched for it, and the URLs for fetching newer and
    older statuses. Everything here is a value; nothing is fetched. */
module Timelines {
  import opened Common
  import opened Urls

  // ---------------------------------------------------------------------
  // Feed selector

  datatype TimelineType = Public | Hashtag(hashtag: string) | Home | List(list: string)

  const PublicPath := "/api/v1/timelines/public"
  const HomePath := "/api/v1/timelines/home"
  const TagPrefix := "/api/v1/timelines/tag/"
  const ListPrefix := "/api/v1/timelines/list/"

  /** The API path of the feed, `TimelineType.path`. */
  function Path(t: TimelineType): (p: string)
    ensures HasPrefix(p, "/api/v1/timelines/")
  {
    match t
    case Public => PublicPath
    case Hashtag(hashtag) => TagPrefix + hashtag
    case Home => HomePath
    case List(list) => ListPrefix + list
  }

  predicate HasPrefix(s: string, prefix: string) {
    |prefix| <= |s| && s[..|prefix|] == prefix
  }

  /** Reads a feed path back into the selector it names. */
  function ParsePath(p: string): (r: Option<TimelineType>)
  {
    if p == PublicPath then Some(Public)
    else if p == HomePath then Some(Home)
    else if HasPrefix(p, TagPrefix) then Some(Hashtag(p[|TagPrefix|..]))
    else if HasPrefix(p, ListPrefix) then Some(List(p[|ListPrefix|..]))
    else None
  }

  /** Every selector's path reads back as that selector. */
  lemma ParsePathRoundTrip(t: TimelineType)
    ensures ParsePath(Path(t)) == Some(t)
  {
    var p := Path(t);
    match t
    case Public =>
    case Home =>
    case Hashtag(hashtag) =>
      assert p[18] == 't' && PublicPath[18] == 'p' && HomePath[18] == 'h';
      assert HasPrefix(p, TagPrefix) && p[|TagPrefix|..] == hashtag;
    case List(list) =>
      assert p[18] == 'l' && PublicPath[18] == 'p' && HomePath[18] == 'h';
      assert TagPrefix[18] == 't';
      assert !HasPrefix(p, TagPrefix);
      assert HasPrefix(p, ListPrefix) && p[|ListPrefix|..] == list;
  }

  /** A path that reads back as a selector is that selector's path. */
  lemma ParsePathSound(p: string, t: TimelineType)
    requires ParsePath(p) == Some(t)
    ensures Path(t) == p
  {
  }

  /** Distinct selectors have distinct paths. */
  lemma PathInjective(a: TimelineType, b: TimelineType)
    requires Path(a) == Path(b)
    ensures a == b
  {
    ParsePathRoundTrip(a);
    ParsePathRoundTrip(b);
  }

  // ---------------------------------------------------------------------
  // Statuses and pages

  /** A status identifier: a natural number, larger is newer, whose
      `rawValue` is its decimal text. */
  datatype StatusId = StatusId(value: nat) {
    function RawValue(): (s: string)
      ensures Parse(s) == Some(value)
    {
      ParseShow(value);
      Show(value)
    }
  }

  /** Only the identifier of a status matters to paging. */
  datatype Status = Status(id: StatusId)

  datatype Page = Page(id: string, url: Url, statuses: seq<Status>, previous: Option<Url>, next: Option<Url>)

  /** What `Page.init` insists on: a first and a last status, the first not
      older than the last. */
  predicate NewestFirst(statuses: seq<Status>) {
    |statuses| > 0 && statuses[0].id.value >= statuses[|statuses| - 1].id.value
  }

  /** The identity string `"<url> | <count><first id> -> <last id>"`. */
  function PageIdentity(url: Url, count: nat, first: StatusId, last: StatusId): string {
    Text(url) + " | " + Show(count) + first.RawValue() + " -> " + last.RawValue()
  }

  /** `Page.init`: keeps what it is given and derives the identity from the
      URL, the number of statuses and the first and last identifiers. */
  function MakePage(url: Url, statuses: seq<Status> := [], previous: Option<Url> := None,
                    next: Option<Url> := None): (p: Page)
    requires NewestFirst(statuses)
    ensures p.url == url && p.statuses == statuses && p.previous == previous && p.next == next
    ensures p.id == PageIdentity(url, |statuses|, statuses[0].id, statuses[|statuses| - 1].id)
  {
    Page(PageIdentity(url, |statuses|, statuses[0].id, statuses[|statuses| - 1].id),
         url, statuses, previous, next)
  }

  /** Two strings that end in a space followed by digits and are equal end
      in the same digits. */
  lemma DigitTailsAgree(p: string, x: string, q: string, y: string)
    requires |p| > 0 && p[|p| - 1] == ' ' && |q| > 0 && q[|q| - 1] == ' '
    requires forall i :: 0 <= i < |x| ==> IsDigit(x[i])
    requires forall i :: 0 <= i < |y| ==> IsDigit(y[i])
    requires p + x == q + y
    ensures x == y
  {
    var s, t := p + x, q + y;
    assert s[|p| - 1] == ' ' && t[|q| - 1] == ' ';
    assert t[|p| - 1] == ' ' && s[|q| - 1] == ' ';
    assert |x| == |y|;
    assert x == s[|p|..] == y;
  }

  /** Pages with equal identities have equal last identifiers. */
  lemma PageIdentityFixesLast(u: Url, n: nat, first: StatusId, last: StatusId,
                              u': Url, n': nat, first': StatusId, last': StatusId)
    requires PageIdentity(u, n, first, last) == PageIdentity(u', n', first', last')
    ensures last == last'
  {
    var p := Text(u) + " | " + Show(n) + first.RawValue() + " -> ";
    var p' := Text(u') + " | " + Show(n') + first'.RawValue() + " -> ";
    DigitTailsAgree(p, last.RawValue(), p', last'.RawValue());
    ShowInjective(last.value, last'.value);
  }

  lemma ShowOfCollidingIds()
    ensures Show(2) + Show(1100) == "21100" == Show(21) + Show(100)
    ensures Show(10) == "10"
  {
    assert Show(10) == "10" by { assert Show(10) == Show(1) + [DigitChar(0)]; }
    assert Show(100) == "100" by { assert Show(100) == Show(10) + [DigitChar(0)]; }
    assert Show(1100) == "1100" by {
      assert Show(11) == "11" by { assert Show(11) == Show(1) + [DigitChar(1)]; }
      assert Show(110) == "110" by { assert Show(110) == Show(11) + [DigitChar(0)]; }
      assert Show(1100) == Show(110) + [DigitChar(0)];
    }
    assert Show(21) == "21" by { assert Show(21) == Show(2) + [DigitChar(1)]; }
  }

  /** The count and the first identifier are printed with nothing between
      them, so the identity does not tell pages apart: two statuses from id
      1100 down to id 10 and twenty-one statuses from id 100 down to id 10
      collide. */
  lemma PageIdentityNotUnique(u: Url)
    ensures PageIdentity(u, 2, StatusId(1100), StatusId(10)) == PageIdentity(u, 21, StatusId(100), StatusId(10))
  {
    ShowOfCollidingIds();
    assert Show(2) + Show(1100) == Show(21) + Show(100);
  }

  // ---------------------------------------------------------------------
  // Timeline

  datatype Timeline = Timeline(timelineType: TimelineType, url: Url, pages: seq<Page>)

  /** `Timeline.init`: the base URL is `https://<host><path>` with no query,
      and the pages are kept as given (none by default). */
  function MakeTimeline(host: string, timelineType: TimelineType, pages: seq<Page> := []): (tl: Timeline)
    ensures tl.timelineType == timelineType && tl.pages == pages
    ensures tl.url.query == [] && HasPrefix(tl.url.base, "https://" + host)
    ensures ParsePath(tl.url.base[|"https://" + host|..]) == Some(timelineType)
  {
    var base := "https://" + host + Path(timelineType);
    assert base[|"https://" + host|..] == Path(timelineType);
    ParsePathRoundTrip(timelineType);
    Timeline(timelineType, Url(base, []), pages)
  }

  /** `previousURL`: nothing without pages; the first page's own link when
      it has one; otherwise the timeline's base URL asking for statuses
      newer than the first page's first status. Only in that last case must
      the first page hold a status (the source unwraps it there). */
  function PreviousUrl(tl: Timeline): (r: Option<Url>)
    requires tl.pages == [] || tl.pages[0].previous.Some? || |tl.pages[0].statuses| > 0
    ensures r.None? <==> tl.pages == []
    ensures tl.pages != [] && tl.pages[0].previous.Some? ==> r == tl.pages[0].previous
    ensures tl.pages != [] && tl.pages[0].previous.None? ==>
              r.value.base == tl.url.base &&
              r.value.query == tl.url.query + [QueryItem("since_id", tl.pages[0].statuses[0].id.RawValue())]
  {
    if tl.pages == [] then None
    else
      var first := tl.pages[0];
      if first.previous.Some? then first.previous
      else Some(AppendingQueryItems(tl.url, [QueryItem("since_id", first.statuses[0].id.RawValue())]))
  }

  /** When the first page has no `previous` link, the synthesised URL gives
      back the first status's identifier. */
  lemma PreviousUrlAnchor(tl: Timeline)
    requires tl.pages != [] && tl.pages[0].previous.None? && |tl.pages[0].statuses| > 0
    requires QueryValue(tl.url, "since_id").None?
    ensures PreviousUrl(tl).Some?
    ensures var since := QueryValue(PreviousUrl(tl).value, "since_id");
            since.Some? && Parse(since.value) == Some(tl.pages[0].statuses[0].id.value)
  {
    var first := tl.pages[0].statuses[0];
    AppendedItemReadsBack(tl.url, "since_id", first.id.RawValue());
  }

  lemma ShowFiveHundred()
    ensures StatusId(500).RawValue() == "500"
  {
  }

  /** One page of statuses 500, 490 and 480 with no `previous` link: the
      URL asks for `since_id=500`. */
  lemma PreviousUrlExample(host: string)
    ensures var page := MakePage(Url("https://" + host + HomePath, []),
                                 [Status(StatusId(500)), Status(StatusId(490)), Status(StatusId(480))]);
            var tl := MakeTimeline(host, Home, [page]);
            PreviousUrl(tl) == Some(Url("https://" + host + HomePath, [QueryItem("since_id", "500")])) &&
            QueryValue(PreviousUrl(tl).value, "since_id") == Some("500")
  {
    var base := "https://" + host + HomePath;
    var page := MakePage(Url(base, []), [Status(StatusId(500)), Status(StatusId(490)), Status(StatusId(480))]);
    var tl := MakeTimeline(host, Home, [page]);
    var item := QueryItem("since_id", "500");
    ShowFiveHundred();
    assert PreviousUrl(tl) == Some(Url(base, [item]));
    AppendedItemReadsBack(tl.url, "since_id", "500");
  }

  /** `nextURL`: the last page's `next` link and nothing else; it never
      builds a URL of its own. */
  function NextUrl(tl: Timeline): (r: Option<Url>)
    ensures r.Some? <==> tl.pages != [] && tl.pages[|tl.pages| - 1].next.Some?
    ensures r.Some? ==> r == tl.pages[|tl.pages| - 1].next
  {
    if tl.pages == [] then None else tl.pages[|tl.pages| - 1].next
  }

  // ---------------------------------------------------------------------
  // Description

  /** How Swift prints a `TimelineType` value by default. */
  function TypeDescription(t: TimelineType): string {
    match t
    case Public => "public"
    case Hashtag(hashtag) => "hashtag(\"" + hashtag + "\")"
    case Home => "home"
    case List(list) => "list(\"" + list + "\")"
  }

  /** Opening minus closing parentheses. */
  function Depth(s: string): int {
    if s == [] then 0
    else Depth(s[..|s| - 1]) + (if s[|s| - 1] == '(' then 1 else if s[|s| - 1] == ')' then -1 else 0)
  }

  lemma {:induction false} DepthAppend(a: string, b: string)
    ensures Depth(a + b) == Depth(a) + Depth(b)
  {
    if b == [] {
      assert a + b == a;
    } else {
      assert (a + b)[..|a + b| - 1] == a + b[..|b| - 1];
      DepthAppend(a, b[..|b| - 1]);
    }
  }

  lemma {:induction false} DepthWithoutParentheses(s: string)
    requires '(' !in s && ')' !in s
    ensures Depth(s) == 0
  {
    if s != [] {
      assert s[|s| - 1] in s;
      var init := s[..|s| - 1];
      assert forall c :: c in init ==> c in s;
      DepthWithoutParentheses(init);
    }
  }

  /** `description` as the source writes it: it opens with `Timeline(` and
      ends in the last digit of the page count, so the parenthesis after
      `Timeline` is never closed. */
  function DescriptionAsWritten(tl: Timeline): (d: string)
    ensures HasPrefix(d, "Timeline(")
    ensures |d| > 0 && IsDigit(d[|d| - 1]) && d[|d| - 1] != ')'
  {
    "Timeline(timelineType: " + TypeDescription(tl.timelineType) + ", pages: " + Show(|tl.pages|)
  }

  /** The description as written determines the number of pages: it ends
      in the page count, after a space. */
  lemma DescriptionFixesCount(a: Timeline, b: Timeline)
    requires DescriptionAsWritten(a) == DescriptionAsWritten(b)
    ensures |a.pages| == |b.pages|
  {
    var p := "Timeline(timelineType: " + TypeDescription(a.timelineType) + ", pages: ";
    var q := "Timeline(timelineType: " + TypeDescription(b.timelineType) + ", pages: ";
    assert DescriptionAsWritten(a) == p + Show(|a.pages|);
    assert DescriptionAsWritten(b) == q + Show(|b.pages|);
    DigitTailsAgree(p, Show(|a.pages|), q, Show(|b.pages|));
    ShowInjective(|a.pages|, |b.pages|);
  }

  /** `description` with its closing parenthesis. */
  function Description(tl: Timeline): string {
    "Timeline(timelineType: " + TypeDescription(tl.timelineType) + ", pages: " + Show(|tl.pages|) + ")"
  }

  predicate PlainSelector(t: TimelineType) {
    match t
    case Hashtag(hashtag) => Depth(hashtag) == 0
    case List(list) => Depth(list) == 0
    case _ => true
  }

  lemma DepthOfShow(n: nat)
    ensures Depth(Show(n)) == 0
  {
    DepthWithoutParentheses(Show(n));
  }

  lemma DepthOfLiterals()
    ensures Depth("Timeline(timelineType: ") == 1 && Depth(", pages: ") == 0 && Depth(")") == -1
  {
    DepthWithoutParentheses(", pages: ");
    DepthWithoutParentheses("Timeline");
    DepthWithoutParentheses("timelineType: ");
    assert "Timeline(timelineType: " == "Timeline" + "(" + "timelineType: ";
    DepthAppend("Timeline", "(");
    DepthAppend("Timeline" + "(", "timelineType: ");
  }

  lemma DepthOfTypeDescription(t: TimelineType)
    requires PlainSelector(t)
    ensures Depth(TypeDescription(t)) == 0
  {
    match t
    case Public => DepthWithoutParentheses("public");
    case Home => DepthWithoutParentheses("home");
    case Hashtag(hashtag) =>
      assert "hashtag(\"" == "hashtag" + "(\"";
      DepthOfQuoted("hashtag", hashtag);
    case List(list) =>
      assert "list(\"" == "list" + "(\"";
      DepthOfQuoted("list", list);
  }

  lemma DepthOfQuoted(name: string, arg: string)
    requires '(' !in name && ')' !in name && Depth(arg) == 0
    ensures Depth(name + "(\"" + arg + "\")") == 0
  {
    DepthWithoutParentheses(name);
    DepthWithoutParentheses("\"");
    assert Depth("(\"") == 1 by { assert "(\"" == "(" + "\""; DepthAppend("(", "\""); }
    assert Depth("\")") == -1 by { assert "\")" == "\"" + ")"; DepthAppend("\"", ")"); }
    DepthAppend(name, "(\"");
    DepthAppend(name + "(\"", arg);
    DepthAppend(name + "(\"" + arg, "\")");
  }

  /** Finding: the text the source prints opens one parenthesis more than
      it closes, for every timeline whose selector text is itself balanced. */
  lemma DescriptionAsWrittenUnbalanced(tl: Timeline)
    requires PlainSelector(tl.timelineType)
    ensures Depth(DescriptionAsWritten(tl)) == 1
  {
    var t, n := TypeDescription(tl.timelineType), Show(|tl.pages|);
    DepthOfLiterals();
    DepthOfTypeDescription(tl.timelineType);
    DepthOfShow(|tl.pages|);
    DepthAppend("Timeline(timelineType: ", t);
    DepthAppend("Timeline(timelineType: " + t, ", pages: ");
    DepthAppend("Timeline(timelineType: " + t + ", pages: ", n);
  }

  /** The corrected text is balanced. */
  lemma DescriptionBalanced(tl: Timeline)
    requires PlainSelector(tl.timelineType)
    ensures Depth(Description(tl)) == 0
  {
    DescriptionAsWrittenUnbalanced(tl);
    DepthOfLiterals();
    assert Description(tl) == DescriptionAsWritten(tl) + ")";
    DepthAppend(DescriptionAsWritten(tl), ")");
  }
}
