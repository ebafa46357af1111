/**
 * The `Link` component of link.tsx: it wraps the framework's link, and on a
 * click prevents the default navigation, starts the progress, waits an
 * artificial 3 seconds and then replaces or pushes the destination. The
 * side effects are recorded, in order, in an `EffectLog`; the router itself
 * is not modelled.
 */
module TransitionLink {
  import opened Wrappers
  import Progress

  /** The artificial slowdown before navigating, in milliseconds. */
  const ArtificialDelayMs: nat := 3000

  // ---------------------------------------------------------------------------
  // Destinations

  /** A URL object: a path, a query string without its `?`, a fragment without its `#`. */
  datatype UrlObject = UrlObject(pathname: string, search: string, hash: string)

  /** The `href` prop: a string, or a plain URL object. */
  datatype Href = Path(path: string) | Object(url: UrlObject)

  /** `href.toString()` as written: JavaScript's `Object.prototype.toString`
      turns a plain object into "[object Object]". */
  function HrefToStringAsWritten(h: Href): string {
    match h
    case Path(p) => p
    case Object(_) => "[object Object]"
  }

  /** The destination a URL object designates, formatted as a URL string. */
  function FormatUrl(u: UrlObject): string {
    u.pathname
      + (if u.search == "" then "" else "?" + u.search)
      + (if u.hash == "" then "" else "#" + u.hash)
  }

  /** The URL string of `href`, as the router should receive it. */
  function FormatHref(h: Href): string {
    match h
    case Path(p) => p
    case Object(u) => FormatUrl(u)
  }

  /** A URL object whose parts format and parse back unambiguously. */
  predicate WellFormedUrl(u: UrlObject) {
    '?' !in u.pathname && '#' !in u.pathname && '#' !in u.search
  }

  /** Split at the first `c`: what precedes it and what follows it. */
  function SplitFirst(s: string, c: char): (string, string)
    decreases |s|
  {
    if s == [] then ("", "")
    else if s[0] == c then ("", s[1..])
    else var (a, b) := SplitFirst(s[1..], c); ([s[0]] + a, b)
  }

  /** Read a URL string back into its path, query string and fragment. */
  function ParseUrl(s: string): UrlObject {
    var (beforeHash, hash) := SplitFirst(s, '#');
    var (path, search) := SplitFirst(beforeHash, '?');
    UrlObject(path, search, hash)
  }

  lemma {:induction false} SplitFirstAbsent(s: string, c: char)
    requires c !in s
    ensures SplitFirst(s, c) == (s, "")
    decreases |s|
  {
    if s != [] {
      SplitFirstAbsent(s[1..], c);
      assert [s[0]] + s[1..] == s;
    }
  }

  lemma {:induction false} SplitFirstAt(a: string, c: char, b: string)
    requires c !in a
    ensures SplitFirst(a + [c] + b, c) == (a, b)
    decreases |a|
  {
    var s := a + [c] + b;
    if a == [] {
      assert s[0] == c && s[1..] == b;
    } else {
      assert s[0] == a[0] && s[1..] == a[1..] + [c] + b;
      SplitFirstAt(a[1..], c, b);
      assert [a[0]] + a[1..] == a;
    }
  }

  /** The intended behaviour: the URL string the router receives for a URL
      object parses back to that object, so it designates the same destination. */
  lemma FormatUrlRoundTrip(u: UrlObject)
    requires WellFormedUrl(u)
    ensures ParseUrl(FormatUrl(u)) == u
  {
    var front := u.pathname + (if u.search == "" then "" else "?" + u.search);
    assert FormatUrl(u) == front + (if u.hash == "" then "" else "#" + u.hash);
    assert '#' !in front;
    if u.hash == "" {
      SplitFirstAbsent(front, '#');
      assert FormatUrl(u) == front;
    } else {
      SplitFirstAt(front, '#', u.hash);
      assert FormatUrl(u) == front + ['#'] + u.hash;
    }
    if u.search == "" {
      SplitFirstAbsent(u.pathname, '?');
      assert front == u.pathname;
    } else {
      SplitFirstAt(u.pathname, '?', u.search);
      assert front == u.pathname + ['?'] + u.search;
    }
  }

  /** The corrected conversion agrees with `toString()` on string hrefs. */
  lemma FormatHrefAgreesOnStrings(p: string)
    ensures FormatHref(Path(p)) == HrefToStringAsWritten(Path(p)) == p
  {
  }


  // ---------------------------------------------------------------------------
  // Rendering and the click protocol

  /** The side effects a click performs, as the page observes them. */
  datatype Effect =
    | PreventDefault
    | StartProgress
    | DelayStarted(ms: nat)
    | DelayElapsed
    | RouterReplace(url: string)
    | RouterPush(url: string)

  predicate IsRouterCall(e: Effect) {
    e.RouterReplace? || e.RouterPush?
  }

  /** A rendered `Link`: its props and the trigger `useProgress` returned. */
  datatype Link = Link(href: Href, replace: bool, trigger: Progress.StartProgress)

  /** Rendering calls `useProgress()`: without a provider it fails, so no click
      handler exists and no navigation can happen. */
  function RenderLink(ctx: Option<Progress.ProgressState>, href: Href, replace: bool)
    : (r: Result<Link, Progress.ContextError>)
    ensures r.Failure? <==> ctx.None?
    ensures r.Failure? ==> r.error.message == Progress.MissingProviderMessage
    ensures r.Success? ==>
      r.value.href == href && r.value.replace == replace && ctx == Some(r.value.trigger.progress)
  {
    match Progress.UseProgress(ctx)
    case Failure(e) => Failure(e)
    case Success(t) => Success(Link(href, replace, t))
  }

  /** The router call a click ends with, given the URL string the handler computed. */
  function Navigation(url: string, replace: bool): Effect {
    if replace then RouterReplace(url) else RouterPush(url)
  }

  /** The effects of one click that navigates to `url`, in order. */
  function ClickEffectsTo(url: string, replace: bool): seq<Effect> {
    [PreventDefault, StartProgress, DelayStarted(ArtificialDelayMs), DelayElapsed, Navigation(url, replace)]
  }

  /** The effects of one click as written: the router receives `href.toString()`. */
  function ClickEffects(href: Href, replace: bool): seq<Effect> {
    ClickEffectsTo(HrefToStringAsWritten(href), replace)
  }

  /** The effects of one click with the corrected conversion of `href`. */
  function ClickEffectsCorrected(href: Href, replace: bool): seq<Effect> {
    ClickEffectsTo(FormatHref(href), replace)
  }

  function CountRouterCalls(t: seq<Effect>): nat
    decreases |t|
  {
    if t == [] then 0 else (if IsRouterCall(t[0]) then 1 else 0) + CountRouterCalls(t[1..])
  }

  lemma {:induction false} CountRouterCallsAppend(a: seq<Effect>, b: seq<Effect>)
    ensures CountRouterCalls(a + b) == CountRouterCalls(a) + CountRouterCalls(b)
    decreases |a|
  {
    if a != [] {
      assert (a + b)[0] == a[0];
      assert (a + b)[1..] == a[1..] + b;
      CountRouterCallsAppend(a[1..], b);
    } else {
      assert a + b == b;
    }
  }

  /** The order of one click's effects, whatever URL it navigates to: the
      default is prevented first, progress starts before the delay begins, the
      navigation comes only after the delay has elapsed, and exactly one router
      call is made, `replace` exactly when the prop is set, with that URL. */
  lemma ClickOrder(url: string, replace: bool)
    ensures var t := ClickEffectsTo(url, replace);
      && |t| == 5
      && t[0] == PreventDefault
      && t[1] == StartProgress && t[2] == DelayStarted(ArtificialDelayMs) && t[3] == DelayElapsed
      && CountRouterCalls(t) == 1
      && (forall k :: 0 <= k < |t| && IsRouterCall(t[k]) ==> k == |t| - 1)
      && (t[|t| - 1].RouterReplace? <==> replace)
      && (t[|t| - 1].RouterPush? <==> !replace)
      && t[|t| - 1].url == url
  {
    var t := ClickEffectsTo(url, replace);
    var nav := Navigation(url, replace);
    assert t[1..] == [StartProgress, DelayStarted(ArtificialDelayMs), DelayElapsed, nav];
    assert t[2..] == [DelayStarted(ArtificialDelayMs), DelayElapsed, nav];
    assert t[3..] == [DelayElapsed, nav];
    assert t[4..] == [nav];
    assert CountRouterCalls([nav]) == 1 by {
      assert [nav][1..] == [];
    }
    assert CountRouterCalls(t[3..]) == 1 by {
      assert t[3..][1..] == t[4..];
    }
    assert CountRouterCalls(t[2..]) == 1 by {
      assert t[2..][1..] == t[3..];
    }
    assert CountRouterCalls(t[1..]) == 1 by {
      assert t[1..][1..] == t[2..];
    }
  }

  /** One click, as written: the effects in the order `ClickOrder` gives, and
      the router receives `href.toString()`. */
  lemma ClickProtocol(href: Href, replace: bool)
    ensures var t := ClickEffects(href, replace);
      && t[0] == PreventDefault
      && t[1] == StartProgress && t[2] == DelayStarted(ArtificialDelayMs) && t[3] == DelayElapsed
      && CountRouterCalls(t) == 1
      && (forall k :: 0 <= k < |t| && IsRouterCall(t[k]) ==> k == |t| - 1)
      && (t[|t| - 1].RouterReplace? <==> replace)
      && (t[|t| - 1].RouterPush? <==> !replace)
      && t[|t| - 1].url == HrefToStringAsWritten(href)
  {
    ClickOrder(HrefToStringAsWritten(href), replace);
  }

  /** One click, corrected: the same effects in the same order as written, one
      router call, and its URL designates the destination: it is the string
      href itself, or it parses back to the URL object. */
  lemma ClickProtocolCorrected(href: Href, replace: bool)
    ensures var t := ClickEffectsCorrected(href, replace);
      var w := ClickEffects(href, replace);
      && |t| == |w| == 5
      && t[..4] == w[..4]
      && CountRouterCalls(t) == 1
      && IsRouterCall(t[4]) && (t[4].RouterReplace? <==> w[4].RouterReplace?)
      && (href.Path? ==> t == w && t[4].url == href.path)
      && (href.Object? && WellFormedUrl(href.url) ==> ParseUrl(t[4].url) == href.url)
  {
    ClickOrder(FormatHref(href), replace);
    ClickOrder(HrefToStringAsWritten(href), replace);
    if href.Object? && WellFormedUrl(href.url) {
      FormatUrlRoundTrip(href.url);
    }
  }

  /** As written, every object href sends the router to the same string,
      whatever its destination: clicks on links to two different destinations
      have identical effects, while the corrected clicks tell them apart. */
  lemma ObjectHrefLosesDestination()
    ensures var about := Object(UrlObject("/about", "", ""));
      var contact := Object(UrlObject("/contact", "", ""));
      && HrefToStringAsWritten(about) == HrefToStringAsWritten(contact) == "[object Object]"
      && ClickEffects(about, false) == ClickEffects(contact, false)
      && ClickEffects(about, false)[4] == RouterPush("[object Object]")
      && ClickEffectsCorrected(about, false)[4] == RouterPush("/about")
      && ClickEffectsCorrected(contact, false)[4] == RouterPush("/contact")
  {
  }

  /** The effects of a sequence of clicks on the given links. */
  function ClicksEffects(links: seq<(Href, bool)>): seq<Effect>
    decreases |links|
  {
    if links == [] then [] else ClicksEffects(links[..|links| - 1]) + ClickEffects(links[|links| - 1].0, links[|links| - 1].1)
  }

  /** Every router call in the trace comes right after an elapsed delay, which
      comes right after a delay start, which comes right after a progress start. */
  ghost predicate NavigatesOnlyAfterDelay(t: seq<Effect>) {
    forall k :: 0 <= k < |t| && IsRouterCall(t[k]) ==>
      k >= 3 && t[k - 1] == DelayElapsed && t[k - 2] == DelayStarted(ArtificialDelayMs) && t[k - 3] == StartProgress
  }

  /** Over any number of clicks: one router call per click, each issued only
      after its progress start and its full delay. */
  lemma {:induction false} ClicksProtocol(links: seq<(Href, bool)>)
    ensures var t := ClicksEffects(links);
      && |t| == 5 * |links|
      && CountRouterCalls(t) == |links|
      && NavigatesOnlyAfterDelay(t)
    decreases |links|
  {
    if links != [] {
      var init := links[..|links| - 1];
      var last := links[|links| - 1];
      ClicksProtocol(init);
      var p := ClicksEffects(init);
      var c := ClickEffects(last.0, last.1);
      ClickProtocol(last.0, last.1);
      CountRouterCallsAppend(p, c);
      var t := p + c;
      forall k | 0 <= k < |t| && IsRouterCall(t[k])
        ensures k >= 3 && t[k - 1] == DelayElapsed && t[k - 2] == DelayStarted(ArtificialDelayMs) && t[k - 3] == StartProgress
      {
        if k < |p| {
          assert t[k] == p[k] && t[k - 1] == p[k - 1] && t[k - 2] == p[k - 2] && t[k - 3] == p[k - 3];
        } else {
          assert t[k] == c[k - |p|];
          assert k - |p| == 4;
        }
      }
    }
  }

  /** The side effects performed so far, in order. */
  class EffectLog {
    var trace: seq<Effect>

    constructor ()
      ensures trace == []
    {
      trace := [];
    }

    method Record(e: Effect)
      modifies this
      ensures trace == old(trace) + [e]
    {
      trace := trace + [e];
    }
  }

  /** The click handler: it runs the whole transition, calling the progress
      trigger on the provider's state. */
  method OnClick(link: Link, log: EffectLog)
    modifies log, link.trigger.progress
    ensures log.trace == old(log.trace) + ClickEffects(link.href, link.replace)
    ensures link.trigger.progress.Snapshot()
         == Progress.Step(old(link.trigger.progress.Snapshot()), Progress.StartCalled)
  {
    log.Record(PreventDefault);
    // startTransition(async () => { ... })
    log.Record(StartProgress);
    Progress.CallStartProgress(link.trigger);
    log.Record(DelayStarted(ArtificialDelayMs));
    log.Record(DelayElapsed);
    var url := HrefToStringAsWritten(link.href);
    if link.replace {
      log.Record(RouterReplace(url));
    } else {
      log.Record(RouterPush(url));
    }
  }
}
