/**
 * controllers/select_controller.js: arrow keys move the focus cyclically
 * through the `.selector` elements inside the controller's element, Escape
 * clears it.
 *
 * `document.activeElement` is a Focus relative to the selector list that
 * `getSelectors` returns; that list is a live DOM query, so each operation
 * takes its current length `n`.
 */
module Select {
  import opened Wrappers

  /** The three handlers `keymap` can name. */
  datatype Action = Deselect | SelectUp | SelectDown

  /** The active element: none (the body), some element outside the list, or the i-th selector. */
  datatype Focus = Blurred | Other | At(index: nat)

  /** The parts of a KeyboardEvent that `handleKey` reads; `undefined` is None. */
  datatype KeyEvent = KeyEvent(
    defaultPrevented: bool,
    tagName: string,
    contentEditable: Option<string>,
    altKey: bool, shiftKey: bool, ctrlKey: bool, metaKey: bool,
    key: Option<string>,
    keyCode: Option<int>)

  const Keymap: map<string, Action> :=
    map["Escape" := Deselect, "ArrowUp" := SelectUp, "ArrowDown" := SelectDown]

  /** Legacy `keyCode` values and the `key` names they stand for. */
  const Codemap: map<int, string> := map[27 := "Escape", 38 := "ArrowUp", 40 := "ArrowDown"]

  /** Keys typed into form fields and editable content are left alone. */
  predicate InEditable(e: KeyEvent) {
    e.tagName == "INPUT" || e.tagName == "TEXTAREA" || e.tagName == "SELECT" ||
    e.contentEditable == Some("true")
  }

  predicate HasModifier(e: KeyEvent) {
    e.altKey || e.shiftKey || e.ctrlKey || e.metaKey
  }

  /**
   * Two-stage key resolution: `e.key` in the keymap, and only if that finds
   * nothing, `e.keyCode` through the codemap and then the keymap.
   */
  function Resolve(keymap: map<string, Action>, codemap: map<int, string>, e: KeyEvent): (r: Option<Action>)
    ensures e.key.Some? && e.key.value in keymap ==> r == Some(keymap[e.key.value])
    ensures r.Some? ==> r.value in keymap.Values
  {
    var byKey := if e.key.Some? && e.key.value in keymap then Some(keymap[e.key.value]) else None;
    if byKey.None? && e.keyCode.Some? && e.keyCode.value in codemap && codemap[e.keyCode.value] in keymap then
      Some(keymap[codemap[e.keyCode.value]])
    else
      byKey
  }

  /**
   * Whether `handleKey` runs an action (and so calls `preventDefault`). With
   * the controller's own tables: exactly the unhandled, unmodified keys
   * outside editable elements that are Escape, ArrowUp or ArrowDown by name
   * or by legacy code.
   */
  predicate Handles(keymap: map<string, Action>, codemap: map<int, string>, e: KeyEvent): (r: bool)
    ensures keymap == Keymap && codemap == Codemap ==>
      (r <==> !e.defaultPrevented && !InEditable(e) && !HasModifier(e) &&
              ((e.key.Some? && e.key.value in {"Escape", "ArrowUp", "ArrowDown"}) ||
               (e.keyCode.Some? && e.keyCode.value in {27, 38, 40})))
  {
    ResolveDefault(e);
    !e.defaultPrevented && !InEditable(e) && !HasModifier(e) && Resolve(keymap, codemap, e).Some?
  }

  /** With the controller's tables, exactly the three named keys and their three legacy codes resolve. */
  lemma ResolveDefault(e: KeyEvent)
    ensures Resolve(Keymap, Codemap, e).Some? <==>
      (e.key.Some? && e.key.value in {"Escape", "ArrowUp", "ArrowDown"}) ||
      (e.keyCode.Some? && e.keyCode.value in {27, 38, 40})
    ensures e.key.Some? && e.key.value in Keymap ==> Resolve(Keymap, Codemap, e) == Some(Keymap[e.key.value])
  {
  }

  /** When `e.key` names no action, the codes 27, 38 and 40 stand for Escape, ArrowUp and ArrowDown. */
  lemma ResolveLegacyCodes(e: KeyEvent)
    requires e.key.None? || e.key.value !in Keymap
    ensures e.keyCode == Some(27) ==> Resolve(Keymap, Codemap, e) == Some(Deselect)
    ensures e.keyCode == Some(38) ==> Resolve(Keymap, Codemap, e) == Some(SelectUp)
    ensures e.keyCode == Some(40) ==> Resolve(Keymap, Codemap, e) == Some(SelectDown)
  {
  }

  /** `selectors.indexOf(document.activeElement)`. */
  function IndexOf(f: Focus, n: nat): (idx: int)
    ensures -1 <= idx < n
    ensures idx >= 0 <==> f.At? && f.index < n
    ensures idx >= 0 ==> f == At(idx)
  {
    if f.At? && f.index < n then f.index else -1
  }

  /** The index `selectUp` passes to `select`; None when `selectors[idx - 1]` is undefined. */
  function UpTarget(f: Focus, n: nat): (r: Option<nat>)
    ensures r.None? <==> n == 0
    ensures n > 0 && IndexOf(f, n) >= 0 ==> r == Some((IndexOf(f, n) - 1) % n)
    ensures n > 0 && IndexOf(f, n) < 0 ==> r == Some(n - 1)
  {
    var idx := IndexOf(f, n);
    var from := if idx <= 0 then n else idx;
    if 0 <= from - 1 < n then Some(from - 1) else None
  }

  /** The index `selectDown` passes to `select`; None when `selectors[idx + 1]` is undefined. */
  function DownTarget(f: Focus, n: nat): (r: Option<nat>)
    ensures r.None? <==> n == 0
    ensures n > 0 && IndexOf(f, n) >= 0 ==> r == Some((IndexOf(f, n) + 1) % n)
    ensures n > 0 && IndexOf(f, n) < 0 ==> r == Some(0)
  {
    var idx := IndexOf(f, n);
    var from := if idx < 0 || idx == n - 1 then -1 else idx;
    if 0 <= from + 1 < n then Some(from + 1) else None
  }

  /** ArrowUp then ArrowDown (and the reverse) returns the focus to the selector it started on. */
  lemma {:induction false} UpDownInverse(i: nat, n: nat)
    requires i < n
    ensures DownTarget(At(UpTarget(At(i), n).value), n) == Some(i)
    ensures UpTarget(At(DownTarget(At(i), n).value), n) == Some(i)
  {
    if i == 0 {
      assert UpTarget(At(i), n) == Some(n - 1);
    } else {
      assert UpTarget(At(i), n) == Some(i - 1);
    }
    if i == n - 1 {
      assert DownTarget(At(i), n) == Some(0);
    } else {
      assert DownTarget(At(i), n) == Some(i + 1);
    }
  }

  /** The focus after `select(selectors[t])`, or after `deselect` when t is None. */
  function SelectResult(t: Option<nat>): (g: Focus) {
    if t.Some? then At(t.value) else Blurred
  }

  /** The focus after an action has run with n selectors. */
  function After(a: Action, f: Focus, n: nat): (g: Focus)
    ensures n == 0 ==> g == Blurred
    ensures a != Deselect && n > 0 ==> g.At? && g.index < n
    ensures a == Deselect ==> g == Blurred
  {
    match a
    case Deselect => Blurred
    case SelectUp => SelectResult(UpTarget(f, n))
    case SelectDown => SelectResult(DownTarget(f, n))
  }

  class SelectController {
    var keymap: map<string, Action>
    var codemap: map<int, string>
    /** document.activeElement. */
    var active: Focus

    /** `initialize`: the key tables. */
    constructor (focus: Focus)
      ensures keymap == Keymap && codemap == Codemap && active == focus
    {
      keymap := Keymap;
      codemap := Codemap;
      active := focus;
    }

    /** `deselect`: blurs whatever is active. */
    method Deselect()
      modifies this`active
      ensures active == Blurred
    {
      if active != Blurred {
        active := Blurred;
      }
    }

    /**
     * `select(el)`: focuses a defined element unless it is already active
     * (then nothing at all happens); an undefined one forwards to `deselect`.
     */
    method Select(t: Option<nat>) returns (focused: bool)
      modifies this`active
      ensures active == SelectResult(t)
      ensures focused <==> t.Some? && old(active) != At(t.value)
      ensures t.Some? && old(active) == At(t.value) ==> active == old(active)
    {
      focused := false;
      if t.Some? {
        if At(t.value) != active {
          active := At(t.value);
          focused := true;
        }
      } else {
        Deselect();
      }
    }

    /** `selectUp`: the previous selector, wrapping from the first (or from none) to the last. */
    method SelectUp(n: nat)
      modifies this`active
      ensures active == SelectResult(UpTarget(old(active), n))
    {
      var idx := IndexOf(active, n);
      if idx <= 0 {
        idx := n;
      }
      var _ := Select(if 0 <= idx - 1 < n then Some(idx - 1) else None);
    }

    /** `selectDown`: the next selector, wrapping from the last (or from none) to the first. */
    method SelectDown(n: nat)
      modifies this`active
      ensures active == SelectResult(DownTarget(old(active), n))
    {
      var idx := IndexOf(active, n);
      if idx < 0 || idx == n - 1 {
        idx := -1;
      }
      var _ := Select(if 0 <= idx + 1 < n then Some(idx + 1) else None);
    }

    /**
     * `handleKey`: runs the resolved action unless the event was already
     * handled, is typed into an editable element or carries a modifier;
     * returns whether `preventDefault` was called.
     */
    method HandleKey(e: KeyEvent, n: nat) returns (prevented: bool)
      modifies this`active
      ensures prevented <==> Handles(keymap, codemap, e)
      ensures prevented ==> active == After(Resolve(keymap, codemap, e).value, old(active), n)
      ensures !prevented ==> active == old(active)
    {
      if e.defaultPrevented {
        return false;
      }
      var key: Option<Action> := None;
      var handled := false;
      if InEditable(e) {
        return false;
      }
      if !HasModifier(e) {
        if e.key.Some? && e.key.value in keymap {
          key := Some(keymap[e.key.value]);
        }
        if key.None? && e.keyCode.Some? {
          if e.keyCode.value in codemap {
            var code := codemap[e.keyCode.value];
            if code in keymap {
              key := Some(keymap[code]);
            }
          }
        }
        if key.Some? {
          handled := true;
          match key.value
          case Deselect => Deselect();
          case SelectUp => SelectUp(n);
          case SelectDown => SelectDown(n);
        }
      }
      prevented := handled;
    }
  }
}
