/**
 * The repository rule update of the repo controller
 * (app/api/controller/repo/rule_update.go): validation of the partial update
 * input and the field-by-field patch of the stored rule.
 *
 * The access check, the rule store, the protection manager's definition
 * sanitizer, the rule state and pattern helpers and the user lookup are
 * outside this model: they appear as an access flag, a RuleStore whose lookup
 * and write outcome are given functions, and the functions of `Oracles`.
 */
module RuleUpdate {
  import opened Wrappers
  import Check

  type Bytes = seq<Check.byte>

  /** enum.RuleState and the rule type are Go string types. */
  type RuleState = string
  type RuleType = string

  /** The principals a rule definition mentions, by ID. */
  type RuleUsers = map<int, string>

  /** A protection pattern as the request carries it. */
  datatype Pattern = Pattern(isDefault: bool, includes: seq<string>, excludes: seq<string>)

  /** The stored fields of a rule that an update can touch, and its type. */
  datatype RuleRecord = RuleRecord(
    ruleType: RuleType,
    uid: Bytes,
    state: RuleState,
    description: string,
    pattern: Bytes,
    definition: Bytes,
    users: RuleUsers)

  /** The collaborators the update calls. */
  datatype Oracles = Oracles(
    sanitizeState: RuleState -> Option<RuleState>,          // RuleState.Sanitize; None when not ok
    validatePattern: Pattern -> bool,                       // Pattern.Validate returned nil
    patternJSON: Pattern -> Bytes,                          // Pattern.JSON
    sanitizeDefinition: (RuleType, Bytes) -> Option<Bytes>, // protection manager SanitizeJSON; None on error
    ruleUsers: RuleRecord -> Option<RuleUsers>)             // getRuleUsers; None on error

  datatype UpdateError =
    | AccessDenied
    | InvalidUID(cause: Check.ValidationError)
    | InvalidState
    | InvalidPattern
    | DefinitionMissing
    | FindFailed
    | InvalidDefinition
    | UsersLookupFailed
    | UpdateFailed

  /** The request body: a UID ("" when not given) and optional fields. */
  datatype UpdateInput = UpdateInput(
    uid: Bytes,
    state: Option<RuleState>,
    description: Option<string>,
    pattern: Option<Pattern>,
    definition: Option<Bytes>)

  const NoUpdate := UpdateInput([], None, None, None, None)

  /**
   * sanitize: the UID (when given) must be a valid UID, the state (when given)
   * is replaced by its sanitized form, the pattern (when given) must validate
   * and the definition (when given) must not be empty. Returns the input as
   * sanitize leaves it and the error, if any.
   */
  function SanitizeInput(v: UpdateInput, o: Oracles): (r: (UpdateInput, Option<UpdateError>))
    ensures r.0 == v || (v.state.Some? && r.0 == v.(state := o.sanitizeState(v.state.value)))
    ensures v.uid != [] && Check.UID(v.uid).Some? ==> r == (v, Some(InvalidUID(Check.UID(v.uid).value)))
    ensures r.1.None? <==>
      && (v.uid == [] || Check.UID(v.uid).None?)
      && (v.state.None? || o.sanitizeState(v.state.value).Some?)
      && (v.pattern.None? || o.validatePattern(v.pattern.value))
      && (v.definition.None? || |v.definition.value| > 0)
    ensures r.1.None? && v.state.Some? ==> r.0.state == o.sanitizeState(v.state.value)
    ensures v.definition.Some? && |v.definition.value| == 0 ==> r.1.Some?
    // the checks run in order UID, state, pattern, definition, each with its own error
    ensures (v.uid == [] || Check.UID(v.uid).None?) && v.state.Some? && o.sanitizeState(v.state.value).None? ==>
      r == (v, Some(InvalidState))
    ensures var sv := if v.state.Some? then v.(state := o.sanitizeState(v.state.value)) else v;
      (v.uid == [] || Check.UID(v.uid).None?) && (v.state.None? || o.sanitizeState(v.state.value).Some?) ==>
        && (v.pattern.Some? && !o.validatePattern(v.pattern.value) ==> r == (sv, Some(InvalidPattern)))
        && ((v.pattern.None? || o.validatePattern(v.pattern.value)) && v.definition.Some? && |v.definition.value| == 0
            ==> r == (sv, Some(DefinitionMissing)))
        && (r.1.None? ==> r.0 == sv)
  {
    if v.uid != [] && Check.UID(v.uid).Some? then (v, Some(InvalidUID(Check.UID(v.uid).value)))
    else if v.state.Some? && o.sanitizeState(v.state.value).None? then (v, Some(InvalidState))
    else
      var v' := if v.state.Some? then v.(state := o.sanitizeState(v.state.value)) else v;
      if v.pattern.Some? && !o.validatePattern(v.pattern.value) then (v', Some(InvalidPattern))
      else if v.definition.Some? && |v.definition.value| == 0 then (v', Some(DefinitionMissing))
      else (v', None)
  }

  /** Sanitizing never turns an empty update into a non-empty one, or back. */
  lemma SanitizeKeepsEmptiness(v: UpdateInput, o: Oracles)
    ensures SanitizeInput(v, o).0 == NoUpdate <==> v == NoUpdate
  {
  }

  /**
   * The field-by-field patch of Controller.RuleUpdate: each provided field overwrites the stored one;
   * the definition is first passed through the definition sanitizer.
   */
  function Patch(rec: RuleRecord, v: UpdateInput, o: Oracles): (r: Result<RuleRecord, UpdateError>)
    ensures r.Failure? <==> v.definition.Some? && o.sanitizeDefinition(rec.ruleType, v.definition.value).None?
    ensures r.Failure? ==> r.error == InvalidDefinition
    ensures v == NoUpdate ==> r == Success(rec)
    ensures r.Success? ==> r.value.ruleType == rec.ruleType && r.value.users == rec.users
    // absent fields keep their stored values
    ensures r.Success? && v.uid == [] ==> r.value.uid == rec.uid
    ensures r.Success? && v.state.None? ==> r.value.state == rec.state
    ensures r.Success? && v.description.None? ==> r.value.description == rec.description
    ensures r.Success? && v.pattern.None? ==> r.value.pattern == rec.pattern
    ensures r.Success? && v.definition.None? ==> r.value.definition == rec.definition
    // provided fields overwrite them
    ensures r.Success? && v.uid != [] ==> r.value.uid == v.uid
    ensures r.Success? && v.state.Some? ==> r.value.state == v.state.value
    ensures r.Success? && v.description.Some? ==> r.value.description == v.description.value
    ensures r.Success? && v.pattern.Some? ==> r.value.pattern == o.patternJSON(v.pattern.value)
    ensures r.Success? && v.definition.Some? ==>
      Some(r.value.definition) == o.sanitizeDefinition(rec.ruleType, v.definition.value)
  {
    var p := rec.(
      uid := if v.uid != [] then v.uid else rec.uid,
      state := if v.state.Some? then v.state.value else rec.state,
      description := if v.description.Some? then v.description.value else rec.description,
      pattern := if v.pattern.Some? then o.patternJSON(v.pattern.value) else rec.pattern);
    if v.definition.None? then Success(p)
    else
      match o.sanitizeDefinition(rec.ruleType, v.definition.value)
      case None => Failure(InvalidDefinition)
      case Some(d) => Success(p.(definition := d))
  }

  /**
   * The whole of RuleUpdate on values: the returned rule or error, and whether
   * the store wrote the rule. `found` is the store's lookup result.
   */
  function UpdateOutcome(accessOk: bool, v: UpdateInput, found: Option<RuleRecord>, o: Oracles,
                         accepts: RuleRecord -> bool): (out: (Result<RuleRecord, UpdateError>, bool))
    ensures out.1 ==> out.0.Success? && accepts(out.0.value)
    ensures !accessOk ==> out == (Failure(AccessDenied), false)
    ensures accessOk && SanitizeInput(v, o).1.Some? ==> out == (Failure(SanitizeInput(v, o).1.value), false)
    ensures accessOk && SanitizeInput(v, o).1.None? && found.None? ==> out == (Failure(FindFailed), false)
    ensures v == NoUpdate ==> !out.1
    ensures v == NoUpdate && out.0.Success? ==> found.Some? && out.0.value == found.value.(users := out.0.value.users)
    ensures out.0.Success? && v != NoUpdate ==>
      out.1 && found.Some? && Patch(found.value, SanitizeInput(v, o).0, o) == Success(out.0.value.(users := found.value.users))
    // an empty update that passes every step returns the found rule with its users
    ensures accessOk && SanitizeInput(v, o).1.None? && found.Some? && v == NoUpdate ==>
      out == match o.ruleUsers(found.value)
             case None => (Failure(UsersLookupFailed), false)
             case Some(u) => (Success(found.value.(users := u)), false)
    // a non-empty update that passes every step is written
    ensures accessOk && SanitizeInput(v, o).1.None? && found.Some? && v != NoUpdate ==>
      out == match Patch(found.value, SanitizeInput(v, o).0, o)
             case Failure(_) => (Failure(InvalidDefinition), false)
             case Success(p) =>
               match o.ruleUsers(p)
               case None => (Failure(UsersLookupFailed), false)
               case Some(u) => if accepts(p.(users := u)) then (Success(p.(users := u)), true) else (Failure(UpdateFailed), false)
  {
    SanitizeKeepsEmptiness(v, o);
    if !accessOk then (Failure(AccessDenied), false)
    else
      var (sv, serr) := SanitizeInput(v, o);
      if serr.Some? then (Failure(serr.value), false)
      else if found.None? then (Failure(FindFailed), false)
      else if sv == NoUpdate then
        match o.ruleUsers(found.value)
        case None => (Failure(UsersLookupFailed), false)
        case Some(u) => (Success(found.value.(users := u)), false)
      else
        match Patch(found.value, sv, o)
        case Failure(e) => (Failure(e), false)
        case Success(p) =>
          match o.ruleUsers(p)
          case None => (Failure(UsersLookupFailed), false)
          case Some(u) =>
            var p' := p.(users := u);
            if accepts(p') then (Success(p'), true) else (Failure(UpdateFailed), false)
  }

  /** An update that fails writes nothing. */
  lemma FailedUpdateWritesNothing(accessOk: bool, v: UpdateInput, found: Option<RuleRecord>, o: Oracles,
                                  accepts: RuleRecord -> bool)
    requires UpdateOutcome(accessOk, v, found, o, accepts).0.Failure?
    ensures !UpdateOutcome(accessOk, v, found, o, accepts).1
  {
  }

  /** A rule update as received: sanitize rewrites its state in place. */
  class RuleUpdateInput {
    var uid: Bytes
    var state: Option<RuleState>
    var description: Option<string>
    var pattern: Option<Pattern>
    var definition: Option<Bytes>

    constructor (v: UpdateInput)
      ensures Value() == v
    {
      uid, state, description, pattern, definition := v.uid, v.state, v.description, v.pattern, v.definition;
    }

    function Value(): UpdateInput
      reads this
    {
      UpdateInput(uid, state, description, pattern, definition)
    }

    /** RuleUpdateInput.sanitize. */
    method Sanitize(o: Oracles) returns (err: Option<UpdateError>)
      modifies this
      ensures (Value(), err) == SanitizeInput(old(Value()), o)
    {
      if uid != [] {
        var e := Check.UID(uid);
        if e.Some? {
          return Some(InvalidUID(e.value));
        }
      }
      if state.Some? {
        var s := o.sanitizeState(state.value);
        if s.None? {
          return Some(InvalidState);
        }
        state := s;
      }
      if pattern.Some? && !o.validatePattern(pattern.value) {
        return Some(InvalidPattern);
      }
      if definition.Some? && |definition.value| == 0 {
        return Some(DefinitionMissing);
      }
      return None;
    }

    /** RuleUpdateInput.isEmpty: nothing at all is to be changed. */
    function IsEmpty(): (r: bool)
      reads this
      ensures r <==> Value() == NoUpdate
    {
      uid == [] && state.None? && description.None? && pattern.None? && definition.None?
    }
  }

  /** A rule as loaded from the store; RuleUpdate patches it field by field. */
  class Rule {
    const ruleType: RuleType
    var uid: Bytes
    var state: RuleState
    var description: string
    var pattern: Bytes
    var definition: Bytes
    var users: RuleUsers

    constructor (rec: RuleRecord)
      ensures Record() == rec
    {
      ruleType := rec.ruleType;
      uid, state, description, pattern, definition, users :=
        rec.uid, rec.state, rec.description, rec.pattern, rec.definition, rec.users;
    }

    function Record(): RuleRecord
      reads this
    {
      RuleRecord(ruleType, uid, state, description, pattern, definition, users)
    }
  }

  /** The rule store: what a lookup by UID finds, whether a write succeeds, and the records written so far. */
  class RuleStore {
    const find: Bytes -> Option<RuleRecord>
    const accepts: RuleRecord -> bool
    var saved: seq<RuleRecord>

    constructor (find: Bytes -> Option<RuleRecord>, accepts: RuleRecord -> bool)
      ensures this.find == find && this.accepts == accepts && saved == []
    {
      this.find, this.accepts := find, accepts;
      saved := [];
    }

    /** FindByUID: a fresh copy of the stored rule, or null when the lookup fails. */
    method FindByUID(uid: Bytes) returns (r: Rule?)
      ensures find(uid).None? ==> r == null
      ensures find(uid).Some? ==> r != null && fresh(r) && r.Record() == find(uid).value
    {
      match find(uid)
      case None => r := null;
      case Some(rec) => r := new Rule(rec);
    }

    /** Update: writes the rule when the store accepts it. */
    method Update(r: Rule) returns (ok: bool)
      modifies this`saved
      ensures ok == accepts(r.Record())
      ensures saved == old(saved) + (if ok then [r.Record()] else [])
    {
      ok := accepts(r.Record());
      if ok {
        saved := saved + [r.Record()];
      }
    }
  }

  /** The field-by-field patch of Controller.RuleUpdate, in place: overwrites the provided fields of `r`; false when the definition is rejected. */
  method ApplyPatch(r: Rule, input: RuleUpdateInput, o: Oracles) returns (ok: bool)
    modifies r
    ensures ok <==> Patch(old(r.Record()), input.Value(), o).Success?
    ensures ok ==> Patch(old(r.Record()), input.Value(), o) == Success(r.Record())
  {
    if input.uid != [] {
      r.uid := input.uid;
    }
    if input.state.Some? {
      r.state := input.state.value;
    }
    if input.description.Some? {
      r.description := input.description.value;
    }
    if input.pattern.Some? {
      r.pattern := o.patternJSON(input.pattern.value);
    }
    if input.definition.Some? {
      var d := o.sanitizeDefinition(r.ruleType, input.definition.value);
      if d.None? {
        return false;
      }
      r.definition := d.value;
    }
    return true;
  }

  /** Controller.RuleUpdate, after the access check whose outcome is `accessOk`. */
  method RuleUpdate(store: RuleStore, accessOk: bool, uid: Bytes, input: RuleUpdateInput, o: Oracles)
    returns (res: Result<Rule, UpdateError>)
    modifies input, store`saved
    ensures var out := UpdateOutcome(accessOk, old(input.Value()), store.find(uid), o, store.accepts);
      && (res.Success? <==> out.0.Success?)
      && (res.Success? ==> fresh(res.value) && res.value.Record() == out.0.value)
      && (res.Failure? ==> res.error == out.0.error)
      && store.saved == old(store.saved) + (if out.1 then [out.0.value] else [])
    ensures input.Value() == if accessOk then SanitizeInput(old(input.Value()), o).0 else old(input.Value())
  {
    ghost var v0 := input.Value();
    ghost var found := store.find(uid);
    ghost var out := UpdateOutcome(accessOk, v0, found, o, store.accepts);
    if !accessOk {
      return Failure(AccessDenied);
    }
    var err := input.Sanitize(o);
    ghost var sanitized := input.Value();
    assert (sanitized, err) == SanitizeInput(v0, o);
    if err.Some? {
      return Failure(err.value);
    }
    var r := store.FindByUID(uid);
    if r == null {
      return Failure(FindFailed);
    }
    ghost var stored := r.Record();
    assert found == Some(stored);
    if input.IsEmpty() {
      var users := o.ruleUsers(r.Record());
      if users.None? {
        assert out == (Failure(UsersLookupFailed), false);
        return Failure(UsersLookupFailed);
      }
      r.users := users.value;
      assert out == (Success(stored.(users := users.value)), false);
      return Success(r);
    }
    var patchedOk := ApplyPatch(r, input, o);
    if !patchedOk {
      assert out == (Failure(InvalidDefinition), false);
      return Failure(InvalidDefinition);
    }
    ghost var patched := r.Record();
    assert Patch(stored, sanitized, o) == Success(patched);
    var users := o.ruleUsers(r.Record());
    if users.None? {
      assert out == (Failure(UsersLookupFailed), false);
      return Failure(UsersLookupFailed);
    }
    r.users := users.value;
    var ok := store.Update(r);
    if !ok {
      assert out == (Failure(UpdateFailed), false);
      return Failure(UpdateFailed);
    }
    assert out == (Success(r.Record()), true);
    return Success(r);
  }
}
