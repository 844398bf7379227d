/** The availability decision of the poller: read one class attribute per
    configured ticket tier from the tickets iframe, and report "available"
    when some tier is not marked exactly `closed`. Browser start-up,
    navigation and the iframe wait are collapsed into `Page`. */
module Availability {
  import opened Settings

  /** The class string of a tier that cannot be bought. */
  const Closed := "closed"

  /** The result of asking the last `li` that contains a tier's name for its
      `class` attribute: the attribute (null when the element has none), or a
      timeout when no such element appears, which is raised as an exception. */
  datatype Lookup = ClassAttr(attr: Option<string>) | LookupTimeout

  /** The page after navigation and the iframe wait: either loaded, with the
      attribute lookup of its tickets iframe, or failed with an exception. */
  datatype Page = Loaded(frame: string -> Lookup) | PageFault

  /** What one call of CheckAsync produces: a verdict, or an exception. */
  datatype CheckResult = Checked(available: bool) | CheckFault

  /** The poller's configuration, fixed at construction. */
  datatype Poller = Poller(targetUrl: Option<string>, tierNames: seq<string>)

  /** The constructor: a missing "TierNames" section becomes the empty list. */
  function NewPoller(cfg: Configuration): (p: Poller)
    ensures p.targetUrl == cfg.targetUrl
    ensures cfg.tierNames.Some? ==> p.tierNames == cfg.tierNames.value
    ensures cfg.tierNames.None? ==> p.tierNames == []
  {
    Poller(cfg.targetUrl, cfg.tierNames.GetOr([]))
  }

  /** The class string recorded for a found tier: `className ?? ""`. */
  function ClassText(l: Lookup): string
    requires l.ClassAttr?
  {
    l.attr.GetOr("")
  }

  /** Every configured tier answers its lookup without a timeout. */
  predicate AllFound(tierNames: seq<string>, frame: string -> Lookup) {
    forall i :: 0 <= i < |tierNames| ==> frame(tierNames[i]).ClassAttr?
  }

  /** `classes.Any(c => c != "closed")`, by recursion over the list. */
  function AnyNotClosed(classes: seq<string>): (r: bool)
    ensures r <==> exists i :: 0 <= i < |classes| && classes[i] != Closed
  {
    if classes == [] then false
    else classes[0] != Closed || AnyNotClosed(classes[1..])
  }

  /** Reference definition of CheckAsync: a fault when the page or any tier
      lookup fails, otherwise "available" exactly when some configured tier's
      class string differs from `closed`. */
  function Verdict(tierNames: seq<string>, page: Page): CheckResult {
    match page
    case PageFault => CheckFault
    case Loaded(frame) =>
      if !AllFound(tierNames, frame) then CheckFault
      else Checked(exists i :: 0 <= i < |tierNames| && ClassText(frame(tierNames[i])) != Closed)
  }

  /** Reference definition of the whole check: without a target URL the
      navigation throws, so every check fails; otherwise the verdict on the
      page. */
  function CheckOf(poller: Poller, page: Page): CheckResult {
    if poller.targetUrl.None? then CheckFault else Verdict(poller.tierNames, page)
  }

  /** ExtractTierClasses: one class string per tier name, in order; the first
      lookup that times out aborts the whole extraction. */
  method ExtractTierClasses(tierNames: seq<string>, frame: string -> Lookup) returns (r: Option<seq<string>>)
    ensures r.Some? <==> AllFound(tierNames, frame)
    ensures r.Some? ==> |r.value| == |tierNames|
    ensures r.Some? ==> forall i :: 0 <= i < |tierNames| ==> r.value[i] == ClassText(frame(tierNames[i]))
  {
    var classes: seq<string> := [];
    var k := 0;
    while k < |tierNames|
      invariant 0 <= k <= |tierNames|
      invariant |classes| == k
      invariant forall i :: 0 <= i < k ==> frame(tierNames[i]).ClassAttr?
      invariant forall i :: 0 <= i < k ==> classes[i] == ClassText(frame(tierNames[i]))
    {
      var lookup := frame(tierNames[k]);
      if lookup.LookupTimeout? {
        return None;
      }
      classes := classes + [lookup.attr.GetOr("")];
      k := k + 1;
    }
    return Some(classes);
  }

  /** CheckAsync: navigation to the target URL, then the tier verdict. */
  method CheckAsync(poller: Poller, page: Page) returns (r: CheckResult)
    ensures r == CheckOf(poller, page)
  {
    if poller.targetUrl.None? {
      return CheckFault;
    }
    match page
    case PageFault =>
      r := CheckFault;
    case Loaded(frame) =>
      var classes := ExtractTierClasses(poller.tierNames, frame);
      match classes
      case None =>
        r := CheckFault;
      case Some(cs) =>
        r := Checked(AnyNotClosed(cs));
        assert AnyNotClosed(cs) == exists i :: 0 <= i < |poller.tierNames| && ClassText(frame(poller.tierNames[i])) != Closed;
  }

  /** One found tier whose class string is not exactly `closed` makes the
      page available, whatever the other tiers say. */
  lemma AvailableWitness(tierNames: seq<string>, frame: string -> Lookup, k: nat)
    requires AllFound(tierNames, frame)
    requires k < |tierNames| && ClassText(frame(tierNames[k])) != Closed
    ensures Verdict(tierNames, Loaded(frame)) == Checked(true)
  {
  }

  /** A tier whose element has no class attribute is recorded as "" and so
      counts as available. */
  lemma NullClassCountsAvailable(tierNames: seq<string>, frame: string -> Lookup, k: nat)
    requires AllFound(tierNames, frame)
    requires k < |tierNames| && frame(tierNames[k]) == ClassAttr(None)
    ensures Verdict(tierNames, Loaded(frame)) == Checked(true)
  {
  }

  /** The comparison is exact: a compound class such as "closed x" counts as
      available. */
  lemma CompoundClassCountsAvailable(tierNames: seq<string>, frame: string -> Lookup, k: nat)
    requires AllFound(tierNames, frame)
    requires k < |tierNames| && frame(tierNames[k]) == ClassAttr(Some("closed x"))
    ensures Verdict(tierNames, Loaded(frame)) == Checked(true)
  {
  }

  /** When every tier is found with class exactly `closed`, the page is
      unavailable. */
  lemma AllClosedUnavailable(tierNames: seq<string>, frame: string -> Lookup)
    requires forall i :: 0 <= i < |tierNames| ==> frame(tierNames[i]) == ClassAttr(Some(Closed))
    ensures Verdict(tierNames, Loaded(frame)) == Checked(false)
  {
  }

  /** With no tier names there are no classes, so the page is unavailable;
      a missing "TierNames" section leads there. */
  lemma MissingTierNamesUnavailable(cfg: Configuration, frame: string -> Lookup)
    requires cfg.tierNames.None?
    ensures NewPoller(cfg).tierNames == []
    ensures Verdict(NewPoller(cfg).tierNames, Loaded(frame)) == Checked(false)
  {
  }

  /** A tier that cannot be found makes the whole check fail, even when
      another tier is open. */
  lemma MissingTierFailsCheck(tierNames: seq<string>, frame: string -> Lookup, k: nat)
    requires k < |tierNames| && frame(tierNames[k]).LookupTimeout?
    ensures Verdict(tierNames, Loaded(frame)) == CheckFault
  {
  }

  /** A missing "TargetUrl" makes every check fail, whatever the page. */
  lemma MissingTargetUrlFails(cfg: Configuration, page: Page)
    requires cfg.targetUrl.None?
    ensures CheckOf(NewPoller(cfg), page) == CheckFault
  {
  }
}
