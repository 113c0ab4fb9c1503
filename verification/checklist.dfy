/** The setup checklist page: checks grouped by priority, the status icon
    and the action button of each item, and the completion banner. */
module Checklist {

  import opened Text
  import opened HealthCheck

  /** The four priority groups, in the order they are shown. */
  datatype Level = Critical | High | Medium | Optional

  /** The priority string of each group. */
  function Name(l: Level): (p: String) {
    match l
    case Critical => CRITICAL
    case High => HIGH
    case Medium => MEDIUM
    case Optional => OPTIONAL
  }

  /** The position of a group in the display order. */
  function Rank(l: Level): (r: nat)
    ensures r < 4
  {
    match l
    case Critical => 0
    case High => 1
    case Medium => 2
    case Optional => 3
  }

  function LevelAt(k: nat): (l: Level)
    requires k < 4
    ensures Rank(l) == k
  {
    if k == 0 then Critical else if k == 1 then High else if k == 2 then Medium else Optional
  }

  /** The priority strings of the groups, in display order. */
  const PRIORITY_ORDER: seq<String> := [CRITICAL, HIGH, MEDIUM, OPTIONAL]

  /** Different groups have different priority strings. */
  lemma NamesDistinct(a: Level, b: Level)
    ensures Name(a) == Name(b) <==> a == b
  {
    if a != b {
      assert Name(a)[0] != Name(b)[0] || |Name(a)| != |Name(b)|;
    }
  }

  /** A group for each of the priorities in `PRIORITY_ORDER`, and only for them. */
  lemma NameInOrder(p: String)
    ensures p in PRIORITY_ORDER <==> exists l: Level :: Name(l) == p
  {
    if p in PRIORITY_ORDER {
      var k :| 0 <= k < 4 && PRIORITY_ORDER[k] == p;
      assert Name(LevelAt(k)) == p;
    }
  }

  /** One rendered group: its level and its checks. Its heading and whether
      it starts expanded follow from the level (`GroupTitle`, `GroupOpen`). */
  datatype Group = Group(level: Level, items: seq<Check>)

  /** A check without a priority is grouped as medium. */
  function PriorityOf(c: Check): (p: String) {
    c.priority.GetOr(MEDIUM)
  }

  function InPriority(p: String): Check -> bool {
    (c: Check) => PriorityOf(c) == p
  }

  /** The checks of priority `p`, in input order. */
  function Members(checks: seq<Check>, p: String): (members: seq<Check>) {
    Filter(checks, InPriority(p))
  }

  /** A check is in the group of priority `p` exactly when it is one of the
      checks and has priority `p`. */
  lemma MembersSpec(checks: seq<Check>, p: String)
    ensures forall c :: c in Members(checks, p) <==> c in checks && PriorityOf(c) == p
  {
    FilterMembers(checks, InPriority(p));
  }

  /** The group heading. */
  function GroupTitle(l: Level): (title: String) {
    match l
    case Critical => "Critical Items"
    case High => "High Items"
    case Medium => "Medium Items"
    case Optional => "Optional Features Items"
  }

  /** The heading is the priority with its first letter capitalised,
      followed by " Items"; the optional group is labelled "Optional
      Features" instead. */
  lemma GroupTitleFromPriority(l: Level)
    ensures l != Optional ==> GroupTitle(l) == Ucfirst(Name(l)) + " Items"
    ensures l == Optional ==> GroupTitle(l) == "Optional Features" + " Items"
  {
    match l
    case Critical =>
      assert CRITICAL[0] == 'c' && CRITICAL[1..] == "ritical";
      assert Ucfirst(CRITICAL) == "Critical";
    case High =>
      assert HIGH[0] == 'h' && HIGH[1..] == "igh";
      assert Ucfirst(HIGH) == "High";
    case Medium =>
      assert MEDIUM[0] == 'm' && MEDIUM[1..] == "edium";
      assert Ucfirst(MEDIUM) == "Medium";
    case Optional =>
  }

  /** Only the critical and high groups start expanded. */
  function GroupOpen(l: Level): (open: bool)
    ensures open <==> Rank(l) < 2
  {
    l == Critical || l == High
  }

  /** The levels from position `k` of the display order on that satisfy
      `present`, in display order. */
  function LevelsFrom(present: Level -> bool, k: nat): (ls: seq<Level>)
    requires k <= 4
    ensures |ls| <= 4 - k
    ensures forall i :: 0 <= i < |ls| ==> k <= Rank(ls[i]) && present(ls[i])
    decreases 4 - k
  {
    if k == 4 then []
    else
      var rest := LevelsFrom(present, k + 1);
      if present(LevelAt(k)) then [LevelAt(k)] + rest else rest
  }

  /** Whether the levels strictly follow the display order. */
  predicate Ascending(ls: seq<Level>) {
    forall i, j :: 0 <= i < j < |ls| ==> Rank(ls[i]) < Rank(ls[j])
  }

  /** A level before all of an ascending list keeps it ascending. */
  lemma ConsAscending(l: Level, rest: seq<Level>)
    requires forall i :: 0 <= i < |rest| ==> Rank(l) < Rank(rest[i])
    requires Ascending(rest)
    ensures Ascending([l] + rest)
  {
    var ls := [l] + rest;
    forall i, j | 0 <= i < j < |ls| ensures Rank(ls[i]) < Rank(ls[j]) {
      if i > 0 {
        assert ls[i] == rest[i - 1];
      }
      assert ls[j] == rest[j - 1];
    }
  }

  /** The levels `LevelsFrom` picks follow the display order strictly. */
  lemma {:induction false} LevelsFromOrdered(present: Level -> bool, k: nat)
    requires k <= 4
    ensures Ascending(LevelsFrom(present, k))
    decreases 4 - k
  {
    if k < 4 {
      LevelsFromOrdered(present, k + 1);
      if present(LevelAt(k)) {
        ConsAscending(LevelAt(k), LevelsFrom(present, k + 1));
      }
    }
  }

  /** Every level from position `k` on that satisfies `present` is there. */
  lemma {:induction false} LevelsFromComplete(present: Level -> bool, k: nat, l: Level)
    requires k <= Rank(l) && present(l)
    ensures l in LevelsFrom(present, k)
    decreases 4 - k
  {
    if Rank(l) != k {
      LevelsFromComplete(present, k + 1, l);
    }
  }

  /** Whether level `l` has checks. */
  function HasChecks(checks: seq<Check>): Level -> bool {
    (l: Level) => Members(checks, Name(l)) != []
  }

  /** The checklist groups: critical, high, medium, optional, each only when
      it has checks, holding the checks of its priority in input order. */
  function Groups(checks: seq<Check>): (gs: seq<Group>)
    ensures |gs| <= 4
    ensures forall i :: 0 <= i < |gs| ==> gs[i].items == Members(checks, Name(gs[i].level)) != []
  {
    GroupsOf(checks, LevelsFrom(HasChecks(checks), 0))
  }

  /** The group of each level in `ls`, in order. */
  function GroupsOf(checks: seq<Check>, ls: seq<Level>): (gs: seq<Group>)
    ensures |gs| == |ls|
    ensures forall i :: 0 <= i < |ls| ==> gs[i].level == ls[i] && gs[i].items == Members(checks, Name(ls[i]))
  {
    if ls == [] then [] else [Group(ls[0], Members(checks, Name(ls[0])))] + GroupsOf(checks, ls[1..])
  }

  /** Whether some group is the group of level `l`. */
  predicate HasGroup(gs: seq<Group>, l: Level) {
    exists i :: 0 <= i < |gs| && gs[i].level == l
  }

  /** A level has a group exactly when it has checks. */
  lemma GroupsCoverLevels(checks: seq<Check>)
    ensures forall l: Level :: HasGroup(Groups(checks), l) <==> Members(checks, Name(l)) != []
  {
    var gs := Groups(checks);
    var ls := LevelsFrom(HasChecks(checks), 0);
    forall l: Level ensures HasGroup(gs, l) <==> Members(checks, Name(l)) != [] {
      if Members(checks, Name(l)) != [] {
        LevelsFromComplete(HasChecks(checks), 0, l);
        var i :| 0 <= i < |ls| && ls[i] == l;
        assert gs[i].level == l;
      }
    }
  }

  /** The checklist groups, in display order: one for each level that has
      checks and none for the others, each holding exactly its level's
      checks. */
  lemma ChecklistGroups(checks: seq<Check>)
    ensures var gs := Groups(checks);
            && (forall i, j :: 0 <= i < j < |gs| ==> Rank(gs[i].level) < Rank(gs[j].level))
            && (forall i :: 0 <= i < |gs| ==> gs[i].items == Members(checks, Name(gs[i].level)))
            && (forall l: Level :: HasGroup(gs, l) <==> Members(checks, Name(l)) != [])
  {
    var ls := LevelsFrom(HasChecks(checks), 0);
    LevelsFromOrdered(HasChecks(checks), 0);
    GroupsOfOrdered(checks, ls);
    GroupsCoverLevels(checks);
  }

  /** Groups built from ascending levels are in display order. */
  lemma GroupsOfOrdered(checks: seq<Check>, ls: seq<Level>)
    requires Ascending(ls)
    ensures var gs := GroupsOf(checks, ls);
            forall i, j :: 0 <= i < j < |gs| ==> Rank(gs[i].level) < Rank(gs[j].level)
  {
  }

  /** Whether a check is shown in some group. */
  predicate Rendered(gs: seq<Group>, c: Check) {
    exists i :: 0 <= i < |gs| && c in gs[i].items
  }

  /** A check is shown exactly when its priority (medium when missing) is one
      of the four known ones, and then only in the group of that priority. */
  lemma RenderedIffKnownPriority(checks: seq<Check>, c: Check)
    requires c in checks
    ensures Rendered(Groups(checks), c) <==> PriorityOf(c) in PRIORITY_ORDER
    ensures forall i :: 0 <= i < |Groups(checks)| && c in Groups(checks)[i].items
              ==> Name(Groups(checks)[i].level) == PriorityOf(c)
  {
    var gs := Groups(checks);
    var p := PriorityOf(c);
    GroupsHoldTheirPriority(gs, checks, c);
    NameInOrder(p);
    if p in PRIORITY_ORDER {
      var l: Level :| Name(l) == p;
      MembersSpec(checks, p);
      GroupsCoverLevels(checks);
      assert HasGroup(gs, l);
      var i :| 0 <= i < |gs| && gs[i].level == l;
      assert c in gs[i].items;
    }
  }

  /** A check inside a group has that group's priority. */
  lemma GroupsHoldTheirPriority(gs: seq<Group>, checks: seq<Check>, c: Check)
    requires forall i :: 0 <= i < |gs| ==> gs[i].items == Members(checks, Name(gs[i].level))
    ensures forall i :: 0 <= i < |gs| && c in gs[i].items ==> Name(gs[i].level) == PriorityOf(c)
  {
    forall i | 0 <= i < |gs| && c in gs[i].items ensures Name(gs[i].level) == PriorityOf(c) {
      MembersSpec(checks, Name(gs[i].level));
    }
  }

  /** Every check of the site is shown: each names a known priority. */
  lemma SiteChecksAllRendered(site: Site)
    ensures forall i :: 0 <= i < 9 ==> Rendered(Groups(GetAllChecks(site)), GetAllChecks(site)[i])
  {
    var cs := GetAllChecks(site);
    forall i | 0 <= i < 9 ensures Rendered(Groups(cs), cs[i]) {
      WellFormedRendered(cs, cs[i], CHECK_KEYS[i]);
    }
  }

  /** A well-formed check is shown. */
  lemma WellFormedRendered(checks: seq<Check>, c: Check, key: String)
    requires c in checks && WellFormed(c, key)
    ensures Rendered(Groups(checks), c)
  {
    RenderedIffKnownPriority(checks, c);
  }

  /** The status icon and CSS class of an item; an unknown status looks
      like an optional one. */
  function StatusIcon(status: String): (r: (String, String))
    ensures status == COMPLETE ==> r == ("✓", "success")
    ensures status == INCOMPLETE ==> r == ("✗", "error")
    ensures status == WARNING ==> r == ("⚠", "warning")
    ensures !KnownStatus(status) || status == OPTIONAL ==> r == ("○", "optional")
  {
    var icons := map[COMPLETE := "✓", INCOMPLETE := "✗", WARNING := "⚠", OPTIONAL := "○"];
    var classes := map[COMPLETE := "success", INCOMPLETE := "error", WARNING := "warning", OPTIONAL := "optional"];
    (if status in icons then icons[status] else "○", if status in classes then classes[status] else "optional")
  }

  /** The four known statuses get four different icons. */
  lemma StatusIconsDistinct(a: String, b: String)
    requires KnownStatus(a) && KnownStatus(b) && a != b
    ensures StatusIcon(a).0 != StatusIcon(b).0
  {
  }

  /** The settings routes for the three actions that are configured by hand. */
  function ActionRoute(action: String): (route: Option<String>)
    ensures route.Some? <==> action == "create_consumer" || action == "configure_preview" || action == "configure_webhooks"
  {
    var routes := map[
      "create_consumer" := "drupal_headless.create_consumer",
      "configure_preview" := "drupal_headless.settings",
      "configure_webhooks" := "drupal_headless.webhooks"];
    if action in routes then Some(routes[action]) else None
  }

  /** The button an item offers. */
  datatype Button = NoButton | FixAutomatically(action: String) | Configure(route: String)

  /** An item with a (non-empty) action offers "Fix Automatically" when it is
      auto-fixable and not complete; otherwise, when not complete, a
      "Configure" link if its action has a settings route; else nothing. */
  function ItemButton(c: Check): (b: Button)
    ensures b.FixAutomatically? <==> Truthy(c.action) && c.autoFix && c.status != COMPLETE
    ensures b.FixAutomatically? ==> b.action == c.action.value
    ensures b.Configure? <==> Truthy(c.action) && !c.autoFix && c.status != COMPLETE && ActionRoute(c.action.value).Some?
    ensures b.Configure? ==> b.route == ActionRoute(c.action.value).value
    ensures c.status == COMPLETE ==> b == NoButton
  {
    if !Truthy(c.action) then NoButton
    else if c.autoFix && c.status != COMPLETE then FixAutomatically(c.action.value)
    else if c.status != COMPLETE then
      match ActionRoute(c.action.value)
      case Some(route) => Configure(route)
      case None => NoButton
    else NoButton
  }

  /** Every "Fix Automatically" button of the site's checklist names an
      action the health-check manager knows. */
  lemma SiteFixButtonsKnown(site: Site)
    ensures forall i :: 0 <= i < 9 && ItemButton(GetAllChecks(site)[i]).FixAutomatically?
              ==> FixAction(ItemButton(GetAllChecks(site)[i]).action)
  {
    var cs := GetAllChecks(site);
    forall i | 0 <= i < 9 && ItemButton(cs[i]).FixAutomatically? ensures FixAction(ItemButton(cs[i]).action) {
      assert cs[i].autoFix;
      assert WellFormed(cs[i], CHECK_KEYS[i]);
    }
  }

  /** A PHP number as the page sees it: an integer or a float (here always
      with an integral value). `===` holds only between equal values of the
      same type. */
  datatype PhpNumber = PhpInt(i: int) | PhpFloat(f: int)

  /** What `getCompletionPercentage` returns: `round()` yields a float, and
      the no-checks branch the integer 0. */
  function CompletionValue(checks: seq<Check>): (v: PhpNumber)
    ensures checks != [] ==> v == PhpFloat(CompletionPercentage(checks))
    ensures checks == [] ==> v == PhpInt(0)
  {
    if |checks| > 0 then PhpFloat(CompletionPercentage(checks)) else PhpInt(0)
  }

  /** The "Setup Complete!" banner as written: shown when the completion
      value is identical (`===`) to the integer 100. */
  function ShowsCompleteBannerAsWritten(checks: seq<Check>): (shown: bool)
    ensures !shown
  {
    CompletionValue(checks) == PhpInt(100)
  }

  /** Even with every check of the site complete the banner as written
      stays hidden, although the percentage shown is 100. */
  lemma CompleteBannerNeverShown(site: Site)
    requires forall i :: 0 <= i < 9 ==> GetAllChecks(site)[i].status == COMPLETE
    ensures CompletionPercentage(GetAllChecks(site)) == 100
    ensures !ShowsCompleteBannerAsWritten(GetAllChecks(site))
  {
    SiteCompletion(site);
  }

  /** The banner as intended: shown when the percentage equals 100. */
  function ShowsCompleteBanner(checks: seq<Check>): (shown: bool)
    ensures checks != [] && Count(checks, IsComplete) == |checks| ==> shown
    ensures 0 < |checks| < 200 ==> (shown <==> Count(checks, IsComplete) == |checks|)
  {
    var shown := match CompletionValue(checks)
      case PhpInt(n) => n == 100
      case PhpFloat(x) => x == 100;
    if 0 < |checks| < 200 then CompletionExtremes(checks); shown else shown
  }

  /** For the site, the intended banner shows exactly when all nine checks
      are complete. */
  lemma CompleteBannerIffAllComplete(site: Site)
    ensures ShowsCompleteBanner(GetAllChecks(site)) <==> forall i :: 0 <= i < 9 ==> GetAllChecks(site)[i].status == COMPLETE
  {
    SiteCompletion(site);
  }
}
