/**
 * The global hotkey registry: bindings by id, keys stored upper-cased and
 * compared without regard to case, a context filter deciding which bindings
 * are live, a per-binding debounce, and an assignment mode that captures the
 * next key pressed. Key names are upper-cased on ASCII letters only.
 */
module HotkeyRegistry {
  import opened Wrappers

  predicate IsLowerAscii(c: char) {
    'a' <= c <= 'z'
  }

  /** The upper-case form of one character, on ASCII letters. */
  function UpperChar(c: char): (u: char)
    ensures !IsLowerAscii(u)
    ensures IsLowerAscii(c) ==> u as int + 32 == c as int
    ensures !IsLowerAscii(c) ==> u == c
  {
    if IsLowerAscii(c) then (c as int - 32) as char else c
  }

  predicate IsUpper(s: string) {
    forall i :: 0 <= i < |s| ==> !IsLowerAscii(s[i])
  }

  /** str.upper() on ASCII letters. */
  function Upper(s: string): (u: string)
    ensures |u| == |s| && IsUpper(u)
    ensures forall i :: 0 <= i < |s| ==> u[i] == UpperChar(s[i])
  {
    seq(|s|, i requires 0 <= i < |s| => UpperChar(s[i]))
  }

  /** An upper-case string is its own upper-case form. */
  lemma UpperOfUpper(s: string)
    requires IsUpper(s)
    ensures Upper(s) == s
  {
    assert forall i :: 0 <= i < |s| ==> Upper(s)[i] == s[i];
  }

  /** Upper-casing twice is upper-casing once. */
  lemma UpperIdempotent(s: string)
    ensures Upper(Upper(s)) == Upper(s)
  {
    UpperOfUpper(Upper(s));
  }

  /** Two key names that name the same key: equal once upper-cased. */
  predicate SameKey(a: string, b: string) {
    Upper(a) == Upper(b)
  }

  /** HotkeyBinding without its callback. */
  datatype Binding = Binding(hotkeyId: string, key: string, context: string, debounce: real, lastTriggered: real)

  /** AssignmentRequest without its callback; conflict_check is kept. */
  datatype AssignmentRequest = AssignmentRequest(
    requesterId: string, conflictCheck: Option<string -> bool>, timeout: real, startTime: real)

  const GlobalContext: string := "global"
  const DefaultDebounce: real := 0.2
  const DefaultTimeout: real := 10.0

  /** Some binding other than id holds a key that names the same key. */
  predicate KeyHeldByOther(registry: map<string, Binding>, key: string, id: string) {
    exists other :: other in registry && other != id && SameKey(registry[other].key, key)
  }

  /** No two bindings hold the same key. */
  predicate KeysDistinct(registry: map<string, Binding>) {
    forall a, b :: a in registry && b in registry && a != b ==> !SameKey(registry[a].key, registry[b].key)
  }

  /** The any(...) test of is_hotkey_registered against the stored keys. */
  predicate KeyRegistered(registry: map<string, Binding>, key: string) {
    exists id :: id in registry && registry[id].key == Upper(key)
  }

  /** A binding is live in the global context and in its own. */
  predicate IsActive(b: Binding, context: string) {
    b.context == GlobalContext || b.context == context
  }

  /** Still within the debounce period after the last trigger. */
  predicate InDebounce(b: Binding, now: real) {
    now - b.lastTriggered < b.debounce
  }

  /** A poll at time now fires the binding: live, out of debounce, and its key is down. */
  predicate Fires(b: Binding, context: string, now: real, pressed: string -> bool) {
    IsActive(b, context) && !InDebounce(b, now) && pressed(b.key)
  }

  /** The conflict check, when there is one, objects to the key. */
  predicate Conflicts(request: AssignmentRequest, key: string) {
    request.conflictCheck.Some? && request.conflictCheck.value(key)
  }

  /** A successful registration keeps keys distinct. */
  lemma RegisterKeepsKeysDistinct(
    registry: map<string, Binding>, id: string, key: string, context: string, debounce: real)
    requires KeysDistinct(registry)
    requires !KeyHeldByOther(registry, key, id)
    ensures KeysDistinct(registry[id := Binding(id, Upper(key), context, debounce, 0.0)])
  {
    UpperIdempotent(key);
  }

  /** After registering key, every spelling of it is registered. */
  lemma RegisteredAfterRegister(
    registry: map<string, Binding>, id: string, key: string, context: string, debounce: real, spelling: string)
    requires SameKey(spelling, key)
    ensures KeyRegistered(registry[id := Binding(id, Upper(key), context, debounce, 0.0)], spelling)
  {
    var updated := registry[id := Binding(id, Upper(key), context, debounce, 0.0)];
    assert updated[id].key == Upper(spelling);
  }

  /** update_hotkey_key does no conflict check: it can give two bindings the same key. */
  lemma UpdateIgnoresConflicts(registry: map<string, Binding>, a: string, b: string, newKey: string)
    requires a in registry && b in registry && a != b
    requires SameKey(registry[a].key, newKey)
    ensures !KeysDistinct(registry[b := registry[b].(key := Upper(newKey))])
  {
    UpperIdempotent(newKey);
    var updated := registry[b := registry[b].(key := Upper(newKey))];
    assert SameKey(updated[a].key, updated[b].key);
  }

  /** HotkeyManager: the registry, the pending assignment request and the current context. */
  class HotkeyManager {
    var registry: map<string, Binding>
    var assignment: Option<AssignmentRequest>
    var currentContext: string

    /** Every binding sits under its own id and holds an upper-case key. */
    predicate Valid()
      reads this
    {
      forall id :: id in registry ==> registry[id].hotkeyId == id && IsUpper(registry[id].key)
    }

    constructor ()
      ensures Valid()
      ensures registry == map[] && assignment.None? && currentContext == GlobalContext
    {
      registry := map[];
      assignment := None;
      currentContext := GlobalContext;
    }

    /**
     * register_hotkey: refused when another id holds the same key; otherwise
     * a fresh binding with the upper-cased key replaces whatever id held.
     */
    method RegisterHotkey(hotkeyId: string, key: string, context: string, debounce: real) returns (ok: bool)
      requires Valid()
      modifies this
      ensures Valid()
      ensures ok <==> !KeyHeldByOther(old(registry), key, hotkeyId)
      ensures ok ==> registry == old(registry)[hotkeyId := Binding(hotkeyId, Upper(key), context, debounce, 0.0)]
      ensures !ok ==> registry == old(registry)
      ensures assignment == old(assignment) && currentContext == old(currentContext)
    {
      var remaining := registry.Keys;
      while remaining != {}
        invariant remaining <= registry.Keys
        invariant forall other :: other in registry && other !in remaining ==>
                    !(other != hotkeyId && SameKey(registry[other].key, key))
        decreases remaining
      {
        var other :| other in remaining;
        if Upper(registry[other].key) == Upper(key) && other != hotkeyId {
          return false;
        }
        remaining := remaining - {other};
      }
      registry := registry[hotkeyId := Binding(hotkeyId, Upper(key), context, debounce, 0.0)];
      return true;
    }

    /** unregister_hotkey: removes that id only, and says whether it was there. */
    method UnregisterHotkey(hotkeyId: string) returns (ok: bool)
      requires Valid()
      modifies this
      ensures Valid()
      ensures ok <==> hotkeyId in old(registry)
      ensures registry == old(registry) - {hotkeyId}
      ensures assignment == old(assignment) && currentContext == old(currentContext)
    {
      if hotkeyId in registry {
        registry := registry - {hotkeyId};
        return true;
      }
      return false;
    }

    /** update_hotkey_key: an unknown id is refused; otherwise the key is replaced, upper-cased, unchecked. */
    method UpdateHotkeyKey(hotkeyId: string, newKey: string) returns (ok: bool)
      requires Valid()
      modifies this
      ensures Valid()
      ensures ok <==> hotkeyId in old(registry)
      ensures ok ==> registry == old(registry)[hotkeyId := old(registry)[hotkeyId].(key := Upper(newKey))]
      ensures !ok ==> registry == old(registry)
      ensures assignment == old(assignment) && currentContext == old(currentContext)
    {
      if hotkeyId !in registry {
        return false;
      }
      registry := registry[hotkeyId := registry[hotkeyId].(key := Upper(newKey))];
      return true;
    }

    /** enter_assignment_mode: refused while a request is pending. */
    method EnterAssignmentMode(requesterId: string, conflictCheck: Option<string -> bool>, timeout: real, now: real)
      returns (ok: bool)
      modifies this
      ensures ok <==> old(assignment).None?
      ensures ok ==> assignment == Some(AssignmentRequest(requesterId, conflictCheck, timeout, now))
      ensures !ok ==> assignment == old(assignment)
      ensures registry == old(registry) && currentContext == old(currentContext)
    {
      if assignment.Some? {
        return false;
      }
      assignment := Some(AssignmentRequest(requesterId, conflictCheck, timeout, now));
      return true;
    }

    /** cancel_assignment_mode: says whether a request was pending; none is afterwards. */
    method CancelAssignmentMode() returns (ok: bool)
      modifies this
      ensures ok <==> old(assignment).Some?
      ensures assignment.None?
      ensures registry == old(registry) && currentContext == old(currentContext)
    {
      if assignment.None? {
        return false;
      }
      assignment := None;
      return true;
    }

    /** set_active_context. */
    method SetActiveContext(context: string)
      modifies this
      ensures currentContext == context
      ensures registry == old(registry) && assignment == old(assignment)
    {
      currentContext := context;
    }

    /** is_hotkey_registered: some binding holds the key, whatever its case. */
    function IsHotkeyRegistered(key: string): (r: bool)
      requires Valid()
      reads this
      ensures r <==> exists id :: id in registry && SameKey(registry[id].key, key)
    {
      assert forall id :: id in registry ==> Upper(registry[id].key) == registry[id].key by {
        forall id | id in registry
          ensures Upper(registry[id].key) == registry[id].key
        {
          UpperOfUpper(registry[id].key);
        }
      }
      KeyRegistered(registry, key)
    }

    /** get_hotkey_by_id. */
    function GetHotkeyById(hotkeyId: string): (r: Option<Binding>)
      reads this
      ensures r.Some? <==> hotkeyId in registry
      ensures r.Some? ==> r.value == registry[hotkeyId]
    {
      if hotkeyId in registry then Some(registry[hotkeyId]) else None
    }

    /** _get_active_hotkeys: every live binding once, and nothing else. */
    method GetActiveHotkeys() returns (active: seq<Binding>)
      requires Valid()
      ensures forall b :: b in active <==> b in registry.Values && IsActive(b, currentContext)
      ensures forall i, j :: 0 <= i < j < |active| ==> active[i].hotkeyId != active[j].hotkeyId
    {
      active := [];
      var remaining := registry.Keys;
      while remaining != {}
        invariant remaining <= registry.Keys
        invariant forall i :: 0 <= i < |active| ==>
                    active[i].hotkeyId in registry && active[i].hotkeyId !in remaining
                    && registry[active[i].hotkeyId] == active[i] && IsActive(active[i], currentContext)
        invariant forall id :: id in registry && id !in remaining && IsActive(registry[id], currentContext) ==>
                    registry[id] in active
        invariant forall i, j :: 0 <= i < j < |active| ==> active[i].hotkeyId != active[j].hotkeyId
        decreases remaining
      {
        var id :| id in remaining;
        if IsActive(registry[id], currentContext) {
          active := active + [registry[id]];
        }
        remaining := remaining - {id};
      }
    }

    /**
     * One pass of the polling loop in detection mode: every live binding out
     * of its debounce period whose key is down fires and records now as its
     * last trigger. While a request is pending the pass does nothing here:
     * HandleAssignment runs instead.
     */
    method Poll(now: real, pressed: string -> bool) returns (triggered: set<string>)
      requires Valid()
      modifies this
      ensures Valid()
      ensures registry.Keys == old(registry).Keys
      ensures forall id :: id in old(registry) ==>
                registry[id] == if id in triggered then old(registry)[id].(lastTriggered := now) else old(registry)[id]
      ensures old(assignment).None? ==>
                forall id :: id in triggered <==> id in old(registry) && Fires(old(registry)[id], currentContext, now, pressed)
      ensures old(assignment).Some? ==> triggered == {}
      ensures assignment == old(assignment) && currentContext == old(currentContext)
    {
      triggered := {};
      if assignment.Some? {
        return;
      }
      var active := GetActiveHotkeys();
      assert forall k :: 0 <= k < |active| ==> active[k] in active;
      for i := 0 to |active|
        invariant Valid()
        invariant assignment == old(assignment) && currentContext == old(currentContext)
        invariant registry.Keys == old(registry).Keys
        invariant forall id :: id in old(registry) ==>
                    registry[id] == if id in triggered then old(registry)[id].(lastTriggered := now) else old(registry)[id]
        invariant forall id :: id in triggered <==>
                    exists k :: 0 <= k < i && active[k].hotkeyId == id && Fires(active[k], currentContext, now, pressed)
      {
        var b := active[i];
        assert b in old(registry).Values;
        if now - b.lastTriggered < b.debounce {
          continue;
        }
        if pressed(b.key) {
          assert b.hotkeyId !in triggered;
          registry := registry[b.hotkeyId := b.(lastTriggered := now)];
          triggered := triggered + {b.hotkeyId};
        }
      }
      forall id | id in old(registry) && Fires(old(registry)[id], currentContext, now, pressed)
        ensures id in triggered
      {
        assert old(registry)[id] in active;
      }
    }

    /**
     * _handle_assignment_mode, given the time and the key-down event read (None
     * for another kind of event or a failed read): a timed-out request is
     * dropped; a key the conflict check accepts is captured upper-cased and
     * ends the request; a conflicting key leaves the request pending.
     */
    method HandleAssignment(now: real, event: Option<string>) returns (captured: Option<string>)
      requires assignment.Some?
      modifies this
      ensures var request := old(assignment).value;
        && (now - request.startTime > request.timeout ==> assignment.None? && captured.None?)
        && (now - request.startTime <= request.timeout && event.Some? && !Conflicts(request, Upper(event.value)) ==>
              assignment.None? && captured == Some(Upper(event.value)))
        && (now - request.startTime <= request.timeout && (event.None? || Conflicts(request, Upper(event.value))) ==>
              assignment == old(assignment) && captured.None?)
      ensures captured.Some? ==> IsUpper(captured.value)
      ensures registry == old(registry) && currentContext == old(currentContext)
    {
      var request := assignment.value;
      if now - request.startTime > request.timeout {
        assignment := None;
        return None;
      }
      if event.None? {
        return None;
      }
      var keyName := Upper(event.value);
      var hasConflict := false;
      if request.conflictCheck.Some? {
        hasConflict := request.conflictCheck.value(keyName);
      }
      if !hasConflict {
        assignment := None;
        return Some(keyName);
      }
      return None;
    }
  }
}
