/**
 * The layout sidebar: its active-entry rule (the path itself or a path
 * below it), its sections (`NavSections`), and the collapsed flag, which
 * `forceExpanded` overrides and which is persisted in browser storage
 * under 'sidebar:collapsed' as '1' or '0'.
 */
module SidebarLayout {
  import opened Wrappers
  import opened JsText

  /** `isActive`: the path is `to`, or starts with `to` followed by '/'. */
  predicate IsActive(path: string, to: string) {
    path == to || StartsWith(path, to + "/")
  }

  /** An entry is highlighted exactly on its path and on paths one '/' further down. */
  lemma ActiveMeans(path: string, to: string)
    ensures IsActive(path, to) <==>
      (path == to || (|path| > |to| && path[..|to|] == to && path[|to|] == '/'))
  {
    if IsActive(path, to) && path != to {
      assert path[..|to|] == (to + "/")[..|to|] == to;
      assert path[|to|] == (to + "/")[|to|];
    }
    if |path| > |to| && path[..|to|] == to && path[|to|] == '/' {
      assert path[..|to| + 1] == to + "/";
    }
  }

  const StorageKey := "sidebar:collapsed"

  /** The component's collapsed signal, and the storage slot it writes; `None` when nothing is stored. */
  class LayoutSidebar {
    var collapsed: bool
    var stored: Option<string>
    const forceExpanded: bool

    constructor(defaultCollapsed: bool, forceExpanded: bool, stored: Option<string>)
      ensures collapsed == defaultCollapsed && this.forceExpanded == forceExpanded && this.stored == stored
    {
      collapsed := defaultCollapsed;
      this.forceExpanded := forceExpanded;
      this.stored := stored;
    }

    /** `isCollapsed`: never collapsed while expansion is forced. */
    function IsCollapsed(): (r: bool)
      reads this
      ensures forceExpanded ==> !r
      ensures !forceExpanded ==> r == collapsed
    {
      if forceExpanded then false else collapsed
    }

    /** On mount a stored value wins: collapsed exactly when it is '1'. */
    method Mount()
      modifies this`collapsed
      ensures collapsed == Restored(stored, old(collapsed))
    {
      if stored.Some? {
        collapsed := stored.value == "1";
      }
    }

    /** `toggle`: flips the flag and stores '1' or '0' for it. */
    method Toggle()
      modifies this`collapsed, this`stored
      ensures collapsed == !old(collapsed)
      ensures stored == Some(Persisted(collapsed))
    {
      var next := !collapsed;
      collapsed := next;
      stored := Some(if next then "1" else "0");
    }
  }

  /** What `toggle` writes for a collapsed state. */
  function Persisted(collapsed: bool): (v: string)
    ensures v == "1" || v == "0"
    ensures (v == "1") == collapsed
  {
    if collapsed then "1" else "0"
  }

  /** The collapsed state after mounting with slot `stored`; `current` is the default. */
  function Restored(stored: Option<string>, current: bool): (r: bool)
    ensures stored.None? ==> r == current
    ensures stored.Some? ==> (r <==> stored.value == "1")
  {
    if stored.Some? then stored.value == "1" else current
  }

  /** A state written by `toggle` is the state restored on the next mount, whatever the default. */
  lemma PersistRoundTrip(collapsed: bool, default: bool)
    ensures Restored(Some(Persisted(collapsed)), default) == collapsed
  {
  }

  /** A stored text other than '1' (a hand-edited '0', 'true', ...) mounts expanded. */
  lemma OtherStoredTextExpands(text: string, default: bool)
    requires text != "1"
    ensures !Restored(Some(text), default)
  {
  }
}
