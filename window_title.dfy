/** The Fusebox window title (front_end/entrypoints/rn_fusebox/FuseboxWindowTitleManager.ts):
    the app name, the device name in parentheses and a suffix, each only when
    non-empty, followed by "- React Native DevTools", joined by single spaces and
    written to `document.title`. */
module WindowTitle {
  import opened Wrappers
  import opened Strings

  const TitleMarker: string := "- React Native DevTools"

  /** The document whose title the manager writes. */
  class Document {
    var title: string

    constructor ()
      ensures title == ""
    {
      title := "";
    }
  }

  /** The parts `#updateTitle` pushes, in order. */
  function TitleParts(app: Option<string>, device: Option<string>, suffix: Option<string>): (r: seq<string>)
    ensures 1 <= |r| <= 4 && r[|r| - 1] == TitleMarker
    ensures Truthy(app) ==> r[0] == app.value
    ensures !Truthy(app) && !Truthy(device) && !Truthy(suffix) ==> r == [TitleMarker]
  {
    (if Truthy(app) then [app.value] else [])
    + (if Truthy(device) then ["(" + device.value + ")"] else [])
    + (if Truthy(suffix) then [suffix.value] else [])
    + [TitleMarker]
  }

  /** Every part is non-empty, and a truthy device name and suffix are among them. */
  lemma TitlePartsPresent(app: Option<string>, device: Option<string>, suffix: Option<string>)
    ensures forall i :: 0 <= i < |TitleParts(app, device, suffix)| ==> TitleParts(app, device, suffix)[i] != ""
    ensures Truthy(device) ==> "(" + device.value + ")" in TitleParts(app, device, suffix)
    ensures Truthy(suffix) ==> suffix.value in TitleParts(app, device, suffix)
  {
  }

  function ComposeTitle(app: Option<string>, device: Option<string>, suffix: Option<string>): (r: string)
    ensures EndsWith(r, TitleMarker)
    ensures |r| >= |TitleMarker|
  {
    JoinEndsWithLast(TitleParts(app, device, suffix), " ");
    Join(TitleParts(app, device, suffix), " ")
  }

  /** An empty string is treated like an absent one. */
  function Normalized(s: Option<string>): Option<string>
  {
    if Truthy(s) then s else None
  }

  /** The title always ends with the marker, preceded by a space unless it is the
      whole title. */
  lemma TitleEndsWithMarker(app: Option<string>, device: Option<string>, suffix: Option<string>)
    ensures EndsWith(ComposeTitle(app, device, suffix), TitleMarker)
    ensures !Truthy(app) && !Truthy(device) && !Truthy(suffix) <==> ComposeTitle(app, device, suffix) == TitleMarker
    ensures ComposeTitle(app, device, suffix) != TitleMarker ==>
      EndsWith(ComposeTitle(app, device, suffix), " " + TitleMarker)
  {
    var parts := TitleParts(app, device, suffix);
    JoinEndsWithLast(parts, " ");
    assert (!Truthy(app) && !Truthy(device) && !Truthy(suffix)) <==> |parts| == 1;
  }

  /** A join ends with its last part, after the separator when there are several. */
  lemma JoinEndsWithLast(parts: seq<string>, sep: string)
    requires |parts| >= 1
    ensures |parts| == 1 ==> Join(parts, sep) == parts[0]
    ensures |parts| >= 2 ==> EndsWith(Join(parts, sep), sep + parts[|parts| - 1])
    ensures EndsWith(Join(parts, sep), parts[|parts| - 1])
    ensures |parts| >= 2 ==> |Join(parts, sep)| >= |sep| + |parts[|parts| - 1]|
  {
    if |parts| >= 2 {
      var front := Join(parts[..|parts| - 1], sep);
      assert Join(parts, sep) == front + (sep + parts[|parts| - 1]);
    }
  }

  /** Undefined and empty fields give the same title. */
  lemma EmptyFieldsContributeNothing(app: Option<string>, device: Option<string>, suffix: Option<string>)
    ensures ComposeTitle(Normalized(app), Normalized(device), Normalized(suffix)) == ComposeTitle(app, device, suffix)
  {
  }

  /** With an app name the title begins with it; with a device name it holds the
      name in parentheses. */
  lemma TitleNamesAppAndDevice(app: Option<string>, device: Option<string>, suffix: Option<string>)
    ensures Truthy(app) ==> StartsWith(ComposeTitle(app, device, suffix), app.value + " ")
    ensures Truthy(device) ==> Contains(ComposeTitle(app, device, suffix), "(" + device.value + ")")
  {
    if Truthy(app) {
      JoinStartsWithFirst(TitleParts(app, device, suffix), " ");
    }
    if Truthy(device) {
      if Truthy(app) {
        DeviceFollowsApp(app, device, suffix);
      } else {
        JoinStartsWithFirst(TitleParts(app, device, suffix), " ");
        assert OccursAt(ComposeTitle(app, device, suffix), "(" + device.value + ")", 0);
      }
    }
  }

  /** With both names, the device name follows the app name and a space. */
  lemma DeviceFollowsApp(app: Option<string>, device: Option<string>, suffix: Option<string>)
    requires Truthy(app) && Truthy(device)
    ensures OccursAt(ComposeTitle(app, device, suffix), "(" + device.value + ")", |app.value| + 1)
  {
    var tail := (if Truthy(suffix) then [suffix.value] else []) + [TitleMarker];
    var rest := ["(" + device.value + ")"] + tail;
    assert TitleParts(app, device, suffix) == [app.value] + rest;
    JoinStartsWithFirst(rest, " ");
    JoinCons(app.value, rest, " ");
    OccursAfter(app.value, " ", Join(rest, " "), "(" + device.value + ")", " ");
  }

  /** A string that starts with `p + q`, put after `a + sep`, holds `p` right after them. */
  lemma OccursAfter(a: string, sep: string, j: string, p: string, q: string)
    requires StartsWith(j, p + q)
    ensures OccursAt(a + sep + j, p, |a| + |sep|)
  {
    var s := a + sep + j;
    assert s[|a| + |sep|..|a| + |sep| + |p|] == j[..|p|];
    assert j[..|p|] == (p + q)[..|p|];
  }

  /** A join of two or more parts begins with the first part and the separator. */
  lemma {:induction false} JoinStartsWithFirst(parts: seq<string>, sep: string)
    requires |parts| >= 2
    ensures StartsWith(Join(parts, sep), parts[0] + sep)
    decreases |parts|
  {
    var front := parts[..|parts| - 1];
    if |parts| > 2 {
      JoinStartsWithFirst(front, sep);
    }
    assert Join(parts, sep) == Join(front, sep) + sep + parts[|parts| - 1];
  }

  lemma {:induction false} JoinCons(x: string, rest: seq<string>, sep: string)
    requires |rest| >= 1
    ensures Join([x] + rest, sep) == x + sep + Join(rest, sep)
    decreases |rest|
  {
    var parts := [x] + rest;
    if |rest| >= 2 {
      JoinCons(x, rest[..|rest| - 1], sep);
      assert parts[..|parts| - 1] == [x] + rest[..|rest| - 1];
    } else {
      assert parts[..1] == [x];
    }
  }

  class FuseboxWindowTitleManager {
    var appDisplayName: Option<string>
    var deviceName: Option<string>
    var suffix: Option<string>
    const document: Document

    constructor (doc: Document)
      ensures document == doc
      ensures appDisplayName == None && deviceName == None && suffix == None
    {
      document := doc;
      appDisplayName := None;
      deviceName := None;
      suffix := None;
    }

    /** setAppInfo: only the app and device fields change. */
    method SetAppInfo(app: Option<string>, device: Option<string>)
      modifies this, document
      ensures appDisplayName == app && deviceName == device && suffix == old(suffix)
      ensures document.title == ComposeTitle(app, device, suffix)
    {
      appDisplayName := app;
      deviceName := device;
      UpdateTitle();
    }

    /** setSuffix: only the suffix changes. */
    method SetSuffix(s: string)
      modifies this, document
      ensures suffix == Some(s)
      ensures appDisplayName == old(appDisplayName) && deviceName == old(deviceName)
      ensures document.title == ComposeTitle(appDisplayName, deviceName, Some(s))
    {
      suffix := Some(s);
      UpdateTitle();
    }

    /** #updateTitle */
    method UpdateTitle()
      modifies document
      ensures document.title == ComposeTitle(appDisplayName, deviceName, suffix)
    {
      var parts: seq<string> := [];
      if Truthy(appDisplayName) {
        parts := parts + [appDisplayName.value];
      }
      if Truthy(deviceName) {
        parts := parts + ["(" + deviceName.value + ")"];
      }
      if Truthy(suffix) {
        parts := parts + [suffix.value];
      }
      parts := parts + [TitleMarker];
      assert parts == TitleParts(appDisplayName, deviceName, suffix);
      document.title := Join(parts, " ");
    }
  }

  /** The class's static `#instance`, created on first use. */
  class TitleManagerSingleton {
    var instance: Option<FuseboxWindowTitleManager>
    const document: Document

    constructor (doc: Document)
      ensures instance == None && document == doc
    {
      instance := None;
      document := doc;
    }

    /** instance(): every call returns the object created by the first one. */
    method Instance() returns (m: FuseboxWindowTitleManager)
      modifies this
      ensures old(instance).Some? ==> m == old(instance).value
      ensures old(instance).None? ==>
        && fresh(m) && m.document == document
        && m.appDisplayName == None && m.deviceName == None && m.suffix == None
      ensures instance == Some(m)
    {
      if instance.None? {
        var created := new FuseboxWindowTitleManager(document);
        instance := Some(created);
      }
      m := instance.value;
    }
  }
}
