/**
 * The start menu's search (components/StartMenu.tsx): the catalog entries
 * whose name contains the search text, compared in lower case, in catalog
 * order.
 */
module StartMenu {
  import opened Seqs
  import opened Text
  import opened Catalog

  /** The filter predicate for one search text. */
  function NameMatches(search: string): (r: AppMetadata -> bool)
    ensures forall app :: r(app) <==> Contains(Lower(app.name), Lower(search))
    ensures search == [] ==> forall app :: r(app)
  {
    (app: AppMetadata) => Contains(Lower(app.name), Lower(search))
  }

  /** `apps.filter(app => app.name.toLowerCase().includes(search.toLowerCase()))`. */
  function FilterApps(apps: seq<AppMetadata>, search: string): (r: seq<AppMetadata>)
    ensures IsSubsequence(r, apps)
    ensures forall i :: 0 <= i < |r| ==> Contains(Lower(r[i].name), Lower(search))
    ensures forall i :: 0 <= i < |apps| && Contains(Lower(apps[i].name), Lower(search)) ==> apps[i] in r
    ensures multiset(r) <= multiset(apps)
    ensures forall i :: 0 <= i < |apps| && Contains(Lower(apps[i].name), Lower(search)) ==>
              multiset(r)[apps[i]] == multiset(apps)[apps[i]]
  {
    Filter(apps, NameMatches(search))
  }

  /** The grid shown for the current search text. */
  function FilteredApps(search: string): (r: seq<AppMetadata>)
    ensures IsSubsequence(r, APPS)
    ensures forall i :: 0 <= i < |r| ==> Contains(Lower(r[i].name), Lower(search))
    ensures forall i :: 0 <= i < |APPS| && Contains(Lower(APPS[i].name), Lower(search)) ==> APPS[i] in r
  {
    FilterApps(APPS, search)
  }

  /** The empty search text lists every application, in catalog order. */
  lemma EmptySearchListsAll(apps: seq<AppMetadata>)
    ensures FilterApps(apps, "") == apps
  {
    forall app | app in apps
      ensures NameMatches("")(app)
    {
      assert OccursAt(Lower(app.name), Lower(""), 0);
    }
    FilterKeepsAll(apps, NameMatches(""));
  }

  /** Searches that agree after lowering give the same list: the search ignores letter case. */
  lemma SearchIgnoresCase(apps: seq<AppMetadata>, a: string, b: string)
    requires Lower(a) == Lower(b)
    ensures FilterApps(apps, a) == FilterApps(apps, b)
  {
    FilterSamePredicate(apps, NameMatches(a), NameMatches(b));
  }

  /** Typing "term" finds NemeTerm. */
  lemma SearchScenario()
    ensures exists i :: 0 <= i < |FilteredApps("TERM")| && FilteredApps("TERM")[i].id == "nemeterm"
  {
    var app := APPS[8];
    assert app.id == "nemeterm";
    assert OccursAt(Lower(app.name), Lower("TERM"), 4);
    assert app in FilteredApps("TERM");
  }
}
