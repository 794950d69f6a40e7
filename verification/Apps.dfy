/** The applications of a node, sorted by id (apps.c). */
module Apps {

  import opened Lists

  type Id = x: int | 0 <= x < 0x1_0000_0000

  datatype App = App(appid: Id, vndid: Id, auth: bool, acct: bool)

  ghost predicate SortedAbove(s: seq<App>, lo: int) {
    s != [] ==> lo < s[0].appid && SortedAbove(s[1..], s[0].appid)
  }

  ghost predicate Sorted(s: seq<App>) {
    SortedAbove(s, -1)
  }

  lemma {:induction false} SortedMeaning(s: seq<App>, lo: int, i: nat)
    requires SortedAbove(s, lo) && i < |s|
    ensures lo < s[i].appid && forall j :: i < j < |s| ==> s[i].appid < s[j].appid
  {
    if i > 0 {
      SortedMeaning(s[1..], s[0].appid, i - 1);
      assert forall j :: i < j < |s| ==> s[j] == s[1..][j - 1];
    } else {
      forall j | 0 < j < |s| ensures s[0].appid < s[j].appid {
        SortedMeaning(s[1..], s[0].appid, j - 1);
      }
    }
  }

  /** The flags add up; the vendor of the first addition stays. */
  function Combined(a: App, auth: bool, acct: bool): App {
    a.(auth := a.auth || auth, acct := a.acct || acct)
  }

  function Merged(s: seq<App>, aid: Id, vid: Id, auth: bool, acct: bool): seq<App> {
    if s == [] || s[0].appid > aid then [App(aid, vid, auth, acct)] + s
    else if s[0].appid == aid then [Combined(s[0], auth, acct)] + s[1..]
    else [s[0]] + Merged(s[1..], aid, vid, auth, acct)
  }

  /** The list as a table: the entry of an application, looked for everywhere. */
  function Lookup(s: seq<App>, id: Id): (r: Option<App>)
    ensures r.Some? ==> r.value in s && r.value.appid == id
    ensures r.None? ==> forall a :: a in s ==> a.appid != id
  {
    if s == [] then None else if s[0].appid == id then Some(s[0]) else Lookup(s[1..], id)
  }

  lemma {:induction false} MergedSorted(s: seq<App>, lo: int, aid: Id, vid: Id, auth: bool, acct: bool)
    requires SortedAbove(s, lo) && lo < aid
    ensures SortedAbove(Merged(s, aid, vid, auth, acct), lo)
  {
    if s != [] && s[0].appid < aid {
      MergedSorted(s[1..], s[0].appid, aid, vid, auth, acct);
    }
  }

  /** A merge changes exactly the entry of its application. */
  lemma {:induction false} MergedMeaning(s: seq<App>, lo: int, aid: Id, vid: Id, auth: bool, acct: bool, id: Id)
    requires SortedAbove(s, lo)
    ensures Lookup(Merged(s, aid, vid, auth, acct), id)
            == if id != aid then Lookup(s, id)
               else if Lookup(s, aid).Some? then
                 var a := Lookup(s, aid).value;
                 Some(App(aid, a.vndid, a.auth || auth, a.acct || acct))
               else Some(App(aid, vid, auth, acct))
  {
    if s != [] {
      if s[0].appid < aid {
        MergedMeaning(s[1..], s[0].appid, aid, vid, auth, acct, id);
      } else if s[0].appid > aid {
        AllAbove(s, lo, aid);
      }
    }
  }

  lemma AllAbove(s: seq<App>, lo: int, aid: Id)
    requires SortedAbove(s, lo) && s != [] && s[0].appid > aid
    ensures Lookup(s, aid) == None
  {
  }

  lemma {:induction false} CombinedAt(s: seq<App>, aid: Id, vid: Id, auth: bool, acct: bool, i: nat)
    requires i < |s| && (forall j :: 0 <= j < i ==> s[j].appid < aid) && s[i].appid == aid
    ensures Merged(s, aid, vid, auth, acct) == s[i := Combined(s[i], auth, acct)]
  {
    if i > 0 {
      CombinedAt(s[1..], aid, vid, auth, acct, i - 1);
      assert s == [s[0]] + s[1..];
    }
  }

  lemma {:induction false} InsertedAt(s: seq<App>, aid: Id, vid: Id, auth: bool, acct: bool, i: nat)
    requires i <= |s| && (forall j :: 0 <= j < i ==> s[j].appid < aid) && (i < |s| ==> s[i].appid > aid)
    ensures Merged(s, aid, vid, auth, acct) == s[..i] + [App(aid, vid, auth, acct)] + s[i..]
  {
    if i > 0 {
      InsertedAt(s[1..], aid, vid, auth, acct, i - 1);
      assert s == [s[0]] + s[1..];
    }
  }

  class AppList {
    var apps: seq<App>

    constructor ()
      ensures apps == []
    {
      apps := [];
    }

    /** fd_app_merge. */
    method Merge(aid: Id, vid: Id, auth: bool, acct: bool)
      modifies this
      ensures apps == Merged(old(apps), aid, vid, auth, acct)
    {
      var i, skip := 0, false;
      while i < |apps| && !skip && apps[i].appid <= aid
        invariant i <= |apps| && |apps| == |old(apps)|
        invariant forall j :: 0 <= j < i ==> old(apps)[j].appid < aid
        invariant !skip ==> apps == old(apps)
        invariant skip ==> && i < |apps| && old(apps)[i].appid == aid
                           && apps == old(apps)[i := Combined(old(apps)[i], auth, acct)]
        decreases |apps| - i, !skip
      {
        if apps[i].appid < aid {
          i := i + 1;
        } else {
          skip := true;
          apps := apps[i := apps[i].(auth := auth || apps[i].auth, acct := acct || apps[i].acct)];
        }
      }
      if skip {
        CombinedAt(old(apps), aid, vid, auth, acct, i);
      } else {
        InsertedAt(apps, aid, vid, auth, acct, i);
        apps := apps[..i] + [App(aid, vid, auth, acct)] + apps[i..];
      }
    }
  }

  /** fd_app_check. */
  method Check(apps: seq<App>, aid: Id) returns (detail: Option<App>)
    requires Sorted(apps)
    ensures detail.Some? ==> detail.value in apps && detail.value.appid == aid
    ensures detail.None? ==> forall a :: a in apps ==> a.appid != aid
  {
    var i := 0;
    while i < |apps|
      invariant i <= |apps| && forall j :: 0 <= j < i ==> apps[j].appid < aid
    {
      if apps[i].appid < aid {
        i := i + 1;
        continue;
      }
      SortedMeaning(apps, -1, i);
      return if apps[i].appid == aid then Some(apps[i]) else None;
    }
    detail := None;
  }

  ghost predicate Shared(a: App, b: App) {
    a.appid == b.appid && ((a.auth && b.auth) || (a.acct && b.acct))
  }

  /** fd_app_check_common: both lists are walked once, and no shared application is missed. */
  method CheckCommon(s: seq<App>, t: seq<App>) returns (found: bool)
    requires Sorted(s) && Sorted(t)
    ensures found <==> exists a, b :: a in s && b in t && Shared(a, b)
  {
    var i, j := 0, 0;
    while i < |s| && j < |t|
      invariant i <= |s| && j <= |t|
      invariant forall k, l :: 0 <= k < |s| && 0 <= l < |t| && (k < i || l < j) ==> !Shared(s[k], t[l])
      decreases |s| - i + |t| - j
    {
      SortedMeaning(s, -1, i);
      SortedMeaning(t, -1, j);
      if s[i].appid < t[j].appid {
        i := i + 1;
        continue;
      }
      if s[i].appid > t[j].appid {
        j := j + 1;
        continue;
      }
      if (s[i].auth && t[j].auth) || (s[i].acct && t[j].acct) {
        assert s[i] in s && t[j] in t && Shared(s[i], t[j]);
        return true;
      }
      i, j := i + 1, j + 1;
    }
    found := false;
  }
}
