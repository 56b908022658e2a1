/** Form templates (backend/app/routers/forms.py): adding a template to the
    caller's workspace and listing the workspace's templates. */
module Forms {
  import opened Common
  import opened Models
  import opened Database

  /** The template form (`FormTemplateCreate`). */
  datatype TemplateInput = TemplateInput(name: string, schema: JsonObject)

  /** create_form_template: one template in the caller's workspace with the
      form's name and schema; the existing templates are kept as they were. */
  function CreateTemplateSpec(db: Db, caller: User, input: TemplateInput): (r: Transition<FormTemplate>)
    ensures r.queued == []
    ensures r.response.Ok?
    ensures var t := r.response.value;
            && r.db == db.(templates := db.templates + [t], nextId := r.db.nextId)
            && t == FormTemplate(t.id, caller.workspaceId, input.name, input.schema)
            && (db.Valid() ==> forall x | x in db.templates :: x.id != t.id)
    ensures db.Valid() ==> r.db.Valid()
  {
    var t := FormTemplate(db.nextId, caller.workspaceId, input.name, input.schema);
    Transition(db.(templates := db.templates + [t], nextId := db.nextId + 1), Ok(t), [])
  }

  /** create_form_template on a store. */
  method CreateTemplate(store: Store, caller: User, input: TemplateInput) returns (r: Response<FormTemplate>)
    modifies store
    ensures Transition(store.Snapshot(), r, []) == CreateTemplateSpec(old(store.Snapshot()), caller, input)
    ensures old(store.Valid()) ==> store.Valid()
  {
    var id := store.NewId();
    var t := FormTemplate(id, caller.workspaceId, input.name, input.schema);
    store.templates := store.templates + [t];
    r := Ok(t);
  }

  /** list_forms: exactly the templates of the caller's workspace. */
  function ListForms(templates: seq<FormTemplate>, caller: User): (r: seq<FormTemplate>)
    ensures forall t | t in r :: t in templates && t.workspaceId == caller.workspaceId
    ensures forall t | t in templates && t.workspaceId == caller.workspaceId :: t in r
  {
    Filter(templates, (t: FormTemplate) => t.workspaceId == caller.workspaceId)
  }
}
