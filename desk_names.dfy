/** The pure part of `_ut_cb_check`: choosing the title of the current desk
    from the window manager's list of desktop-name records. */
module DeskNames {
  import opened CText

  /** One `E_Config_Desktop_Name` record: the desk it names, by container,
      zone number and grid position, and its name, which may be null. */
  datatype DesktopName = DesktopName(container: int, zone: int, deskX: int, deskY: int, name: Option<string>)

  /** A record that names desk (x, y) of zone `zone`: present, for that zone
      and that desk, and with a non-null name. The container is not compared. */
  predicate Names(dn: Option<DesktopName>, zone: int, x: int, y: int) {
    && dn.Some?
    && dn.value.zone == zone
    && dn.value.deskX == x && dn.value.deskY == y
    && dn.value.name.Some?
  }

  /** The label `_ut_cb_check` shows: the name of the first record in list
      order that names the desk, or the empty string when none does. */
  function SelectTitle(names: seq<Option<DesktopName>>, zone: int, x: int, y: int): (t: string)
    ensures t != "" ==> exists k :: 0 <= k < |names| && Names(names[k], zone, x, y)
  {
    if names == [] then ""
    else if Names(names[0], zone, x, y) then names[0].value.name.value
    else SelectTitle(names[1..], zone, x, y)
  }

  /** The first record that names the desk decides the title; records before
      it (null ones, other desks, or a matching desk with a null name) are skipped. */
  lemma {:induction false} SelectTitleFirst(names: seq<Option<DesktopName>>, zone: int, x: int, y: int, k: nat)
    requires k < |names| && Names(names[k], zone, x, y)
    requires forall j :: 0 <= j < k ==> !Names(names[j], zone, x, y)
    ensures SelectTitle(names, zone, x, y) == names[k].value.name.value
  {
    if k > 0 {
      SelectTitleFirst(names[1..], zone, x, y, k - 1);
    }
  }

  /** With no record naming the desk, the title is the empty string. */
  lemma SelectTitleNone(names: seq<Option<DesktopName>>, zone: int, x: int, y: int)
    requires forall j :: 0 <= j < |names| ==> !Names(names[j], zone, x, y)
    ensures SelectTitle(names, zone, x, y) == ""
  {
  }

  /** The title is always the name of a record for this desk, or empty. */
  lemma {:induction false} SelectTitleSound(names: seq<Option<DesktopName>>, zone: int, x: int, y: int)
    ensures var t := SelectTitle(names, zone, x, y);
      t == "" || exists k :: 0 <= k < |names| && Names(names[k], zone, x, y) && names[k].value.name.value == t
  {
    if names != [] && !Names(names[0], zone, x, y) {
      SelectTitleSound(names[1..], zone, x, y);
      var t := SelectTitle(names, zone, x, y);
      if t != "" {
        var k :| 0 <= k < |names[1..]| && Names(names[1..][k], zone, x, y) && names[1..][k].value.name.value == t;
        assert names[k + 1] == names[1..][k];
      }
    }
  }
}
