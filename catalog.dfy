/**
 * The records shared by the desktop (types.ts) and the static application
 * table (constants.tsx). Icons and colours are rendering data and are left out.
 */
module Catalog {
  import opened Wrappers

  /**
   * An application identifier. At run time it is a plain string; the
   * TypeScript union narrows it to the eleven names of APP_IDS, but callers
   * can pass any string, which is why lookups may fail.
   */
  type AppId = string

  /** The members of the `AppId` union, in declaration order. */
  const APP_IDS: seq<AppId> := [
    "filenexus", "nemodocs", "nemesheets", "nemeslides", "nemeplayer", "nemecalc",
    "nemecalendar", "nemenotes", "nemeterm", "nemesettings", "nemeweb"
  ]

  datatype AppMetadata = AppMetadata(id: AppId, name: string, description: string)

  /** The application table, in the order the start menu lists it. */
  const APPS: seq<AppMetadata> := [
    AppMetadata("filenexus", "FileNexus", "Advanced file manager"),
    AppMetadata("nemodocs", "NemeDocs", "Markdown word processor"),
    AppMetadata("nemesheets", "NemeSheets", "Smart spreadsheet"),
    AppMetadata("nemeslides", "NemeSlides", "Presentation builder"),
    AppMetadata("nemeplayer", "NemePlayer", "Neon media player"),
    AppMetadata("nemecalc", "NemeCalc", "Scientific calculator"),
    AppMetadata("nemecalendar", "NemeCalendar", "Interactive calendar"),
    AppMetadata("nemenotes", "NemeNotes", "Quick notes"),
    AppMetadata("nemeterm", "NemeTerm", "Cyberpunk terminal"),
    AppMetadata("nemeweb", "NemeWeb", "Secure browser"),
    AppMetadata("nemesettings", "Settings", "System configuration")
  ]

  /** Array.prototype.find over an application table: the first entry with that id. */
  function FindIn(apps: seq<AppMetadata>, id: AppId): (r: Option<AppMetadata>)
    ensures r.Some? ==> exists k :: 0 <= k < |apps| && apps[k] == r.value
                          && r.value.id == id && forall j :: 0 <= j < k ==> apps[j].id != id
    ensures r.None? <==> forall k :: 0 <= k < |apps| ==> apps[k].id != id
  {
    if apps == [] then None
    else if apps[0].id == id then Some(apps[0])
    else
      var r := FindIn(apps[1..], id);
      assert r.Some? ==> exists k :: 0 <= k < |apps| && apps[k] == r.value
                          && forall j :: 0 <= j < k ==> apps[j].id != id by {
        if r.Some? {
          var k :| 0 <= k < |apps| - 1 && apps[1..][k] == r.value
                   && forall j :: 0 <= j < k ==> apps[1..][j].id != id;
          assert apps[k + 1] == r.value;
        }
      }
      r
  }

  /** `APPS.find(a => a.id === appId)`: the first catalog entry with that id. */
  function FindApp(id: AppId): (r: Option<AppMetadata>)
    ensures r.Some? ==> r.value.id == id
    ensures r.Some? ==> exists k :: 0 <= k < |APPS| && APPS[k] == r.value && forall j :: 0 <= j < k ==> APPS[j].id != id
    ensures r.None? <==> forall k :: 0 <= k < |APPS| ==> APPS[k].id != id
  {
    FindIn(APPS, id)
  }

  /** Every member of the `AppId` union has an entry in the table, under its own name. */
  lemma EveryAppIdIsListed()
    ensures forall id :: id in APP_IDS ==> FindApp(id).Some? && FindApp(id).value.id == id
  {
    forall k | 0 <= k < |APP_IDS|
      ensures FindApp(APP_IDS[k]).Some? && FindApp(APP_IDS[k]).value.id == APP_IDS[k]
    {
      var m := if k == 9 then 10 else if k == 10 then 9 else k;
      assert APPS[m].id == APP_IDS[k];
    }
  }

  /** WindowState (types.ts). Positions and sizes are whole workspace pixels. */
  datatype WindowState = WindowState(
    id: string,
    appId: AppId,
    title: string,
    isOpen: bool,
    isMinimized: bool,
    isMaximized: bool,
    zIndex: int,
    x: int,
    y: int,
    width: int,
    height: int)

  datatype NotificationKind = System | Info | Warning | Error

  /** Notification (types.ts); `timestamp` is milliseconds since the epoch. */
  datatype Notification = Notification(
    id: string,
    title: string,
    message: string,
    kind: NotificationKind,
    timestamp: int)
}
