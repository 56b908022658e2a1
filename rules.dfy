/** Automation rules (backend/app/routers/automation.py): creating a rule for one
    of the workspace's form templates, listing and deleting the workspace's rules. */
module AutomationRules {
  import opened Common
  import opened Models
  import opened Database

  /** The rule form (`AutomationRuleCreate`); `isActive` is left out as None. */
  datatype RuleInput = RuleInput(
    name: string, formTemplateId: int, actionType: AutomationActionType,
    actionConfig: JsonObject, isActive: Option<int>)

  const TEMPLATE_NOT_FOUND := "Form template not found"
  const RULE_NOT_FOUND := "Rule not found"
  const RULE_DELETED := "Rule deleted"

  /** `is_active: int = 1` */
  const DEFAULT_IS_ACTIVE := 1

  /** create_automation_rule: the template must belong to the caller's
      workspace; the rule copies the form's fields into the caller's workspace,
      active unless the form says otherwise. */
  function CreateRuleSpec(db: Db, caller: User, input: RuleInput): (r: Transition<AutomationRule>)
    ensures r.queued == []
    ensures r.response.Ok? || r.response == NotFound(TEMPLATE_NOT_FOUND)
    ensures r.response.NotFound? <==>
      forall t | t in db.templates :: !(t.id == input.formTemplateId && t.workspaceId == caller.workspaceId)
    ensures r.response.NotFound? ==> r.db == db
    ensures r.response.Ok? ==>
      var rule := r.response.value;
      && r.db == db.(rules := db.rules + [rule], nextId := r.db.nextId)
      && rule == AutomationRule(rule.id, caller.workspaceId, input.formTemplateId, input.name,
                                input.actionType, input.actionConfig, input.isActive.GetOr(DEFAULT_IS_ACTIVE))
      && (input.isActive.None? ==> rule.isActive == 1)
      && (db.Valid() ==> forall x | x in db.rules :: x.id != rule.id)
    ensures db.Valid() ==> r.db.Valid()
  {
    if TemplateInWorkspace(db.templates, input.formTemplateId, caller.workspaceId).None? then
      Transition(db, NotFound(TEMPLATE_NOT_FOUND), [])
    else
      var rule := AutomationRule(db.nextId, caller.workspaceId, input.formTemplateId, input.name,
                                 input.actionType, input.actionConfig, input.isActive.GetOr(DEFAULT_IS_ACTIVE));
      Transition(db.(rules := db.rules + [rule], nextId := db.nextId + 1), Ok(rule), [])
  }

  /** create_automation_rule on a store. */
  method CreateRule(store: Store, caller: User, input: RuleInput) returns (r: Response<AutomationRule>)
    modifies store
    ensures Transition(store.Snapshot(), r, []) == CreateRuleSpec(old(store.Snapshot()), caller, input)
    ensures old(store.Valid()) ==> store.Valid()
  {
    var template := TemplateInWorkspace(store.templates, input.formTemplateId, caller.workspaceId);
    if template.None? {
      return NotFound(TEMPLATE_NOT_FOUND);
    }
    var id := store.NewId();
    var rule := AutomationRule(id, caller.workspaceId, input.formTemplateId, input.name,
                               input.actionType, input.actionConfig, input.isActive.GetOr(DEFAULT_IS_ACTIVE));
    store.rules := store.rules + [rule];
    r := Ok(rule);
  }

  /** list_automation_rules: exactly the rules of the caller's workspace. */
  function ListRules(rules: seq<AutomationRule>, caller: User): (r: seq<AutomationRule>)
    ensures forall x | x in r :: x in rules && x.workspaceId == caller.workspaceId
    ensures forall x | x in rules && x.workspaceId == caller.workspaceId :: x in r
  {
    Filter(rules, (x: AutomationRule) => x.workspaceId == caller.workspaceId)
  }

  /** delete_automation_rule: a rule outside the caller's workspace is not found;
      otherwise exactly the first matching row goes, and the others stay in
      their order (see `RemoveAt`). */
  function DeleteRuleSpec(db: Db, ruleId: int, caller: User): (r: Transition<string>)
    ensures r.queued == []
    ensures r.response.Ok? || r.response == NotFound(RULE_NOT_FOUND)
    ensures r.response.NotFound? <==>
      forall x | x in db.rules :: !(x.id == ruleId && x.workspaceId == caller.workspaceId)
    ensures r.response.NotFound? ==> r.db == db
    ensures r.response.Ok? ==>
      var i := RuleIndex(db.rules, ruleId, caller.workspaceId).value;
      && r.response.value == RULE_DELETED
      && db.rules[i].id == ruleId && db.rules[i].workspaceId == caller.workspaceId
      && r.db == db.(rules := r.db.rules)
      && r.db.rules == RemoveAt(db.rules, i)
    ensures db.Valid() ==> r.db.Valid()
  {
    match RuleIndex(db.rules, ruleId, caller.workspaceId)
    case None => Transition(db, NotFound(RULE_NOT_FOUND), [])
    case Some(i) =>
      var rest := RemoveAt(db.rules, i);
      assert db.Valid() ==> db.(rules := rest).Valid() by {
        if db.Valid() {
          forall x | x in rest ensures x.id < db.nextId {
            assert x in db.rules;
          }
        }
      }
      Transition(db.(rules := rest), Ok(RULE_DELETED), [])
  }

  /** delete_automation_rule on a store. */
  method DeleteRule(store: Store, ruleId: int, caller: User) returns (r: Response<string>)
    modifies store
    ensures Transition(store.Snapshot(), r, []) == DeleteRuleSpec(old(store.Snapshot()), ruleId, caller)
    ensures old(store.Valid()) ==> store.Valid()
  {
    var index := RuleIndex(store.rules, ruleId, caller.workspaceId);
    if index.None? {
      return NotFound(RULE_NOT_FOUND);
    }
    store.rules := RemoveAt(store.rules, index.value);
    r := Ok(RULE_DELETED);
  }
}
