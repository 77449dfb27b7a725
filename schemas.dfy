/** The response schemas that `AiService` hands to the generation endpoint, the JSON
    values it may answer with, and what it means for a value to conform.

    The service does not validate what `JSON.parse` returns; it relies on the
    endpoint honouring the schema. None of the schemas has a `required` list, so
    every object property is optional and a conforming reply may leave any of them
    out. The model types the replies (a list of `Module`s, of `QuizQuestion`s, of
    strings); this module shows that the encodings of the typed values are exactly
    the conforming JSON values that fill every declared property, and that a
    conforming reply which leaves one out has no typed reading. */
module Schemas {
  import opened Wrappers
  import opened PlanModel

  /** A declarative schema: the `Type.*` tree of the `@google/genai` `Schema`, with
      the names an object's `required` list holds. */
  datatype Schema = SString | SInteger | SBoolean | SArray(items: Schema)
                  | SObject(props: seq<Prop>, required: set<string>)

  datatype Prop = Prop(name: string, schema: Schema)

  /** A parsed JSON value of the kinds the schemas speak of. */
  datatype Json = JString(str: string) | JInt(num: int) | JBool(flag: bool)
                | JArray(items: seq<Json>) | JObject(fields: map<string, Json>)

  function PropNames(props: seq<Prop>): set<string>
  {
    set i | 0 <= i < |props| :: props[i].name
  }

  /** `j` has the shape `s` describes: the right kind at every level and, for an
      object, only declared properties, every required one, and each present one
      of its declared shape. With `filled`, every declared property must be present
      as well. */
  predicate Fits(j: Json, s: Schema, filled: bool)
  {
    match s
    case SString => j.JString?
    case SInteger => j.JInt?
    case SBoolean => j.JBool?
    case SArray(item) =>
      j.JArray? && forall i :: 0 <= i < |j.items| ==> Fits(j.items[i], item, filled)
    case SObject(props, required) =>
      && j.JObject?
      && j.fields.Keys <= PropNames(props)
      && required <= j.fields.Keys
      && (filled ==> PropNames(props) <= j.fields.Keys)
      && forall i :: 0 <= i < |props| && props[i].name in j.fields ==>
           Fits(j.fields[props[i].name], props[i].schema, filled)
  }

  /** `j` is a reply the endpoint may give for the schema `s`. */
  predicate Conforms(j: Json, s: Schema)
  {
    Fits(j, s, false)
  }

  /** `j` conforms to `s` and leaves out none of the declared properties. */
  predicate Filled(j: Json, s: Schema)
  {
    Fits(j, s, true)
  }

  /** A filled value conforms. */
  lemma {:induction false} FilledConforms(j: Json, s: Schema)
    requires Filled(j, s)
    ensures Conforms(j, s)
  {
    match s
    case SString =>
    case SInteger =>
    case SBoolean =>
    case SArray(item) =>
      forall i | 0 <= i < |j.items| ensures Conforms(j.items[i], item) {
        FilledConforms(j.items[i], item);
      }
    case SObject(props, required) =>
      forall i | 0 <= i < |props| && props[i].name in j.fields
        ensures Conforms(j.fields[props[i].name], props[i].schema)
      {
        FilledConforms(j.fields[props[i].name], props[i].schema);
      }
  }

  /** Without a `required` list every property is optional: the empty object
      conforms to any object schema. */
  lemma EmptyObjectConforms(props: seq<Prop>)
    ensures Conforms(JObject(map[]), SObject(props, {}))
    ensures props != [] ==> !Filled(JObject(map[]), SObject(props, {}))
  {
    if props != [] {
      assert props[0].name in PropNames(props);
    }
  }

  /** `generateSuggestions`: an array of strings. */
  const SuggestionsSchema: Schema := SArray(SString)

  const ResourceSchema: Schema := SObject([Prop("title", SString), Prop("url", SString)], {})

  const TaskSchema: Schema := SObject([
    Prop("title", SString), Prop("description", SString),
    Prop("completed", SBoolean), Prop("resources", SArray(ResourceSchema))], {})

  const ModuleSchema: Schema := SObject([
    Prop("title", SString), Prop("week", SInteger),
    Prop("description", SString), Prop("tasks", SArray(TaskSchema))], {})

  /** `generatePlan`: an array of modules. */
  const PlanSchema: Schema := SArray(ModuleSchema)

  const QuestionSchema: Schema := SObject([
    Prop("question", SString), Prop("options", SArray(SString)), Prop("correctIndex", SInteger)], {})

  /** `generateQuiz`: an array of questions. */
  const QuizSchema: Schema := SArray(QuestionSchema)

  /** One quiz question; nothing ties `correctIndex` to the options. */
  datatype QuizQuestion = QuizQuestion(question: string, options: seq<string>, correctIndex: int)

  // ---- typed values as JSON

  function StringsJson(ss: seq<string>): Json
  {
    JArray(seq(|ss|, i requires 0 <= i < |ss| => JString(ss[i])))
  }

  function ResourceJson(r: Resource): Json
  {
    JObject(map["title" := JString(r.title), "url" := JString(r.url)])
  }

  function TaskJson(t: Task): Json
  {
    JObject(map["title" := JString(t.title), "description" := JString(t.description),
                "completed" := JBool(t.completed),
                "resources" := JArray(seq(|t.resources|, i requires 0 <= i < |t.resources| => ResourceJson(t.resources[i])))])
  }

  function ModuleJson(m: Module): Json
  {
    JObject(map["title" := JString(m.title), "week" := JInt(m.week),
                "description" := JString(m.description),
                "tasks" := JArray(seq(|m.tasks|, i requires 0 <= i < |m.tasks| => TaskJson(m.tasks[i])))])
  }

  function ModulesJson(ms: seq<Module>): Json
  {
    JArray(seq(|ms|, i requires 0 <= i < |ms| => ModuleJson(ms[i])))
  }

  function QuestionJson(q: QuizQuestion): Json
  {
    JObject(map["question" := JString(q.question), "options" := StringsJson(q.options),
                "correctIndex" := JInt(q.correctIndex)])
  }

  function QuizJson(qs: seq<QuizQuestion>): Json
  {
    JArray(seq(|qs|, i requires 0 <= i < |qs| => QuestionJson(qs[i])))
  }

  // ---- the shapes the schemas describe, written out

  predicate IsResourceJson(j: Json)
  {
    && j.JObject? && j.fields.Keys == {"title", "url"}
    && j.fields["title"].JString? && j.fields["url"].JString?
  }

  predicate IsTaskJson(j: Json)
  {
    && j.JObject? && j.fields.Keys == {"title", "description", "completed", "resources"}
    && j.fields["title"].JString? && j.fields["description"].JString?
    && j.fields["completed"].JBool? && j.fields["resources"].JArray?
    && forall i :: 0 <= i < |j.fields["resources"].items| ==> IsResourceJson(j.fields["resources"].items[i])
  }

  predicate IsModuleJson(j: Json)
  {
    && j.JObject? && j.fields.Keys == {"title", "week", "description", "tasks"}
    && j.fields["title"].JString? && j.fields["week"].JInt?
    && j.fields["description"].JString? && j.fields["tasks"].JArray?
    && forall i :: 0 <= i < |j.fields["tasks"].items| ==> IsTaskJson(j.fields["tasks"].items[i])
  }

  predicate IsStringsJson(j: Json)
  {
    j.JArray? && forall i :: 0 <= i < |j.items| ==> j.items[i].JString?
  }

  predicate IsQuestionJson(j: Json)
  {
    && j.JObject? && j.fields.Keys == {"question", "options", "correctIndex"}
    && j.fields["question"].JString? && IsStringsJson(j.fields["options"])
    && j.fields["correctIndex"].JInt?
  }

  lemma StringsShape(j: Json)
    ensures Conforms(j, SuggestionsSchema) <==> IsStringsJson(j)
    ensures Filled(j, SuggestionsSchema) <==> IsStringsJson(j)
  {
    if j.JArray? {
      assert forall i :: 0 <= i < |j.items| ==> (Fits(j.items[i], SString, false) <==> j.items[i].JString?);
      assert forall i :: 0 <= i < |j.items| ==> (Fits(j.items[i], SString, true) <==> j.items[i].JString?);
    }
  }

  /** The filled resource objects are exactly the `IsResourceJson` values, and
      each of them conforms. */
  lemma ResourceShape(j: Json)
    ensures Filled(j, ResourceSchema) <==> IsResourceJson(j)
    ensures IsResourceJson(j) ==> Conforms(j, ResourceSchema)
  {
    var ps := ResourceSchema.props;
    assert ps[0] == Prop("title", SString) && ps[1] == Prop("url", SString);
    assert PropNames(ps) == {"title", "url"};
    if j.JObject? && j.fields.Keys == {"title", "url"} {
      assert Fits(j.fields["title"], SString, true) <==> j.fields["title"].JString?;
      assert Fits(j.fields["url"], SString, true) <==> j.fields["url"].JString?;
    }
    if IsResourceJson(j) {
      FilledConforms(j, ResourceSchema);
    }
  }

  /** The filled task objects are exactly the `IsTaskJson` values, and each of
      them conforms. */
  lemma TaskShape(j: Json)
    ensures Filled(j, TaskSchema) <==> IsTaskJson(j)
    ensures IsTaskJson(j) ==> Conforms(j, TaskSchema)
  {
    var ps := TaskSchema.props;
    assert ps[0] == Prop("title", SString) && ps[1] == Prop("description", SString);
    assert ps[2] == Prop("completed", SBoolean) && ps[3] == Prop("resources", SArray(ResourceSchema));
    assert PropNames(ps) == {"title", "description", "completed", "resources"};
    if j.JObject? && j.fields.Keys == PropNames(ps) {
      assert Fits(j.fields["title"], SString, true) <==> j.fields["title"].JString?;
      assert Fits(j.fields["description"], SString, true) <==> j.fields["description"].JString?;
      assert Fits(j.fields["completed"], SBoolean, true) <==> j.fields["completed"].JBool?;
      if Filled(j, TaskSchema) {
        assert Fits(j.fields["title"], SString, true) && Fits(j.fields["description"], SString, true);
        assert Fits(j.fields["completed"], SBoolean, true);
        assert Fits(j.fields["resources"], SArray(ResourceSchema), true);
      }
      if j.fields["resources"].JArray? {
        var rs := j.fields["resources"].items;
        forall i | 0 <= i < |rs| ensures Fits(rs[i], ResourceSchema, true) <==> IsResourceJson(rs[i]) {
          ResourceShape(rs[i]);
        }
        assert Fits(j.fields["resources"], SArray(ResourceSchema), true) <==> forall i :: 0 <= i < |rs| ==> IsResourceJson(rs[i]);
      }
    }
    if IsTaskJson(j) {
      FilledConforms(j, TaskSchema);
    }
  }

  /** The filled module objects are exactly the `IsModuleJson` values, and each
      of them conforms. */
  lemma ModuleShape(j: Json)
    ensures Filled(j, ModuleSchema) <==> IsModuleJson(j)
    ensures IsModuleJson(j) ==> Conforms(j, ModuleSchema)
  {
    var ps := ModuleSchema.props;
    assert ps[0] == Prop("title", SString) && ps[2] == Prop("description", SString);
    assert ps[1] == Prop("week", SInteger) && ps[3] == Prop("tasks", SArray(TaskSchema));
    assert PropNames(ps) == {"title", "week", "description", "tasks"};
    if j.JObject? && j.fields.Keys == PropNames(ps) {
      assert Fits(j.fields["title"], SString, true) <==> j.fields["title"].JString?;
      assert Fits(j.fields["week"], SInteger, true) <==> j.fields["week"].JInt?;
      assert Fits(j.fields["description"], SString, true) <==> j.fields["description"].JString?;
      if Filled(j, ModuleSchema) {
        assert Fits(j.fields["title"], SString, true) && Fits(j.fields["week"], SInteger, true);
        assert Fits(j.fields["description"], SString, true);
        assert Fits(j.fields["tasks"], SArray(TaskSchema), true);
      }
      if j.fields["tasks"].JArray? {
        var ts := j.fields["tasks"].items;
        forall i | 0 <= i < |ts| ensures Fits(ts[i], TaskSchema, true) <==> IsTaskJson(ts[i]) {
          TaskShape(ts[i]);
        }
        assert Fits(j.fields["tasks"], SArray(TaskSchema), true) <==> forall i :: 0 <= i < |ts| ==> IsTaskJson(ts[i]);
      }
    }
    if IsModuleJson(j) {
      FilledConforms(j, ModuleSchema);
    }
  }

  /** The filled question objects are exactly the `IsQuestionJson` values, and
      each of them conforms. */
  lemma QuestionShape(j: Json)
    ensures Filled(j, QuestionSchema) <==> IsQuestionJson(j)
    ensures IsQuestionJson(j) ==> Conforms(j, QuestionSchema)
  {
    var ps := QuestionSchema.props;
    assert ps[0] == Prop("question", SString) && ps[2] == Prop("correctIndex", SInteger);
    assert ps[1] == Prop("options", SArray(SString));
    assert PropNames(ps) == {"question", "options", "correctIndex"};
    if j.JObject? && j.fields.Keys == PropNames(ps) {
      assert Fits(j.fields["question"], SString, true) <==> j.fields["question"].JString?;
      assert Fits(j.fields["correctIndex"], SInteger, true) <==> j.fields["correctIndex"].JInt?;
      StringsShape(j.fields["options"]);
    }
    if IsQuestionJson(j) {
      FilledConforms(j, QuestionSchema);
    }
  }

  // ---- conforming JSON as typed values

  function ResourceOf(j: Json): Resource
    requires IsResourceJson(j)
  {
    Resource(j.fields["title"].str, j.fields["url"].str)
  }

  function TaskOf(j: Json): Task
    requires IsTaskJson(j)
  {
    var rs := j.fields["resources"].items;
    Task(j.fields["title"].str, j.fields["description"].str, j.fields["completed"].flag,
         seq(|rs|, i requires 0 <= i < |rs| => ResourceOf(rs[i])))
  }

  function ModuleOf(j: Json): Module
    requires IsModuleJson(j)
  {
    var ts := j.fields["tasks"].items;
    Module(j.fields["title"].str, j.fields["week"].num, j.fields["description"].str,
           seq(|ts|, i requires 0 <= i < |ts| => TaskOf(ts[i])))
  }

  function StringsOf(j: Json): seq<string>
    requires IsStringsJson(j)
  {
    seq(|j.items|, i requires 0 <= i < |j.items| => j.items[i].str)
  }

  function QuestionOf(j: Json): QuizQuestion
    requires IsQuestionJson(j)
  {
    QuizQuestion(j.fields["question"].str, StringsOf(j.fields["options"]), j.fields["correctIndex"].num)
  }

  /** The modules a plan reply stands for, if it fills the plan schema. */
  function DecodeModules(j: Json): Option<seq<Module>>
  {
    if j.JArray? && forall i :: 0 <= i < |j.items| ==> IsModuleJson(j.items[i])
    then Some(seq(|j.items|, i requires 0 <= i < |j.items| => ModuleOf(j.items[i])))
    else None
  }

  /** The questions a quiz reply stands for, if it fills the quiz schema. */
  function DecodeQuiz(j: Json): Option<seq<QuizQuestion>>
  {
    if j.JArray? && forall i :: 0 <= i < |j.items| ==> IsQuestionJson(j.items[i])
    then Some(seq(|j.items|, i requires 0 <= i < |j.items| => QuestionOf(j.items[i])))
    else None
  }

  /** The suggestions a reply stands for, if it is an array of strings. */
  function DecodeStrings(j: Json): Option<seq<string>>
  {
    if IsStringsJson(j) then Some(StringsOf(j)) else None
  }

  // ---- typed values and conforming JSON correspond one to one

  lemma ResourceRoundTrip(r: Resource)
    ensures IsResourceJson(ResourceJson(r)) && ResourceOf(ResourceJson(r)) == r
  {
  }

  lemma ResourceBack(j: Json)
    requires IsResourceJson(j)
    ensures ResourceJson(ResourceOf(j)) == j
  {
  }

  lemma TaskRoundTrip(t: Task)
    ensures IsTaskJson(TaskJson(t)) && TaskOf(TaskJson(t)) == t
  {
    forall i | 0 <= i < |t.resources| {
      ResourceRoundTrip(t.resources[i]);
    }
  }

  lemma TaskBack(j: Json)
    requires IsTaskJson(j)
    ensures TaskJson(TaskOf(j)) == j
  {
    var rs := j.fields["resources"].items;
    forall i | 0 <= i < |rs| {
      ResourceBack(rs[i]);
    }
    assert TaskJson(TaskOf(j)).fields["resources"].items == rs;
  }

  lemma ModuleRoundTrip(m: Module)
    ensures IsModuleJson(ModuleJson(m)) && ModuleOf(ModuleJson(m)) == m
  {
    forall i | 0 <= i < |m.tasks| {
      TaskRoundTrip(m.tasks[i]);
    }
  }

  lemma ModuleBack(j: Json)
    requires IsModuleJson(j)
    ensures ModuleJson(ModuleOf(j)) == j
  {
    var ts := j.fields["tasks"].items;
    forall i | 0 <= i < |ts| {
      TaskBack(ts[i]);
    }
    assert ModuleJson(ModuleOf(j)).fields["tasks"].items == ts;
  }

  /** Every list of modules is written as JSON that fills the plan schema, hence
      conforms to it, and reads back as the same modules. */
  lemma ModulesEncodeDecode(ms: seq<Module>)
    ensures Filled(ModulesJson(ms), PlanSchema) && Conforms(ModulesJson(ms), PlanSchema)
    ensures DecodeModules(ModulesJson(ms)) == Some(ms)
  {
    var items := ModulesJson(ms).items;
    forall i | 0 <= i < |ms| ensures IsModuleJson(items[i]) && ModuleOf(items[i]) == ms[i] {
      ModuleRoundTrip(ms[i]);
    }
    forall i | 0 <= i < |ms| ensures Filled(items[i], ModuleSchema) {
      ModuleShape(items[i]);
    }
    FilledConforms(ModulesJson(ms), PlanSchema);
    assert DecodeModules(ModulesJson(ms)).value == ms;
  }

  /** A plan reply decodes exactly when it fills the plan schema; then it conforms
      and is the JSON of the modules it decodes to. */
  lemma ModulesDecodeEncode(j: Json)
    ensures DecodeModules(j).Some? <==> Filled(j, PlanSchema)
    ensures DecodeModules(j).Some? ==> Conforms(j, PlanSchema) && ModulesJson(DecodeModules(j).value) == j
  {
    if j.JArray? {
      forall i | 0 <= i < |j.items| ensures Filled(j.items[i], ModuleSchema) <==> IsModuleJson(j.items[i]) {
        ModuleShape(j.items[i]);
      }
      if DecodeModules(j).Some? {
        forall i | 0 <= i < |j.items| ensures ModuleJson(ModuleOf(j.items[i])) == j.items[i] {
          ModuleBack(j.items[i]);
        }
        assert ModulesJson(DecodeModules(j).value).items == j.items;
        FilledConforms(j, PlanSchema);
      }
    }
  }

  /** A plan reply whose one module carries only its title conforms to the plan
      schema, yet has no reading as a list of modules. */
  lemma PartialPlanConforms(title: string)
    ensures Conforms(JArray([JObject(map["title" := JString(title)])]), PlanSchema)
    ensures DecodeModules(JArray([JObject(map["title" := JString(title)])])).None?
  {
    var m := JObject(map["title" := JString(title)]);
    var ps := ModuleSchema.props;
    assert ps[0] == Prop("title", SString);
    assert ps[1] == Prop("week", SInteger) && ps[2].name == "description" && ps[3].name == "tasks";
    assert PropNames(ps) == {"title", "week", "description", "tasks"};
    assert Conforms(m, ModuleSchema);
    assert !IsModuleJson(JArray([m]).items[0]);
  }

  lemma QuestionRoundTrip(q: QuizQuestion)
    ensures IsQuestionJson(QuestionJson(q)) && QuestionOf(QuestionJson(q)) == q
  {
  }

  lemma QuestionBack(j: Json)
    requires IsQuestionJson(j)
    ensures QuestionJson(QuestionOf(j)) == j
  {
    assert StringsJson(StringsOf(j.fields["options"])).items == j.fields["options"].items;
  }

  /** Every list of questions is written as JSON that fills the quiz schema, hence
      conforms to it, and reads back as the same questions. */
  lemma QuizEncodeDecode(qs: seq<QuizQuestion>)
    ensures Filled(QuizJson(qs), QuizSchema) && Conforms(QuizJson(qs), QuizSchema)
    ensures DecodeQuiz(QuizJson(qs)) == Some(qs)
  {
    var items := QuizJson(qs).items;
    forall i | 0 <= i < |qs| ensures IsQuestionJson(items[i]) && QuestionOf(items[i]) == qs[i] {
      QuestionRoundTrip(qs[i]);
    }
    forall i | 0 <= i < |qs| ensures Filled(items[i], QuestionSchema) {
      QuestionShape(items[i]);
    }
    FilledConforms(QuizJson(qs), QuizSchema);
    assert DecodeQuiz(QuizJson(qs)).value == qs;
  }

  /** A quiz reply decodes exactly when it fills the quiz schema; then it conforms
      and is the JSON of the questions it decodes to. */
  lemma QuizDecodeEncode(j: Json)
    ensures DecodeQuiz(j).Some? <==> Filled(j, QuizSchema)
    ensures DecodeQuiz(j).Some? ==> Conforms(j, QuizSchema) && QuizJson(DecodeQuiz(j).value) == j
  {
    if j.JArray? {
      forall i | 0 <= i < |j.items| ensures Filled(j.items[i], QuestionSchema) <==> IsQuestionJson(j.items[i]) {
        QuestionShape(j.items[i]);
      }
      if DecodeQuiz(j).Some? {
        forall i | 0 <= i < |j.items| ensures QuestionJson(QuestionOf(j.items[i])) == j.items[i] {
          QuestionBack(j.items[i]);
        }
        assert QuizJson(DecodeQuiz(j).value).items == j.items;
        FilledConforms(j, QuizSchema);
      }
    }
  }

  /** A quiz reply whose one question carries only its text conforms to the quiz
      schema, yet has no reading as a list of questions. */
  lemma PartialQuizConforms(question: string)
    ensures Conforms(JArray([JObject(map["question" := JString(question)])]), QuizSchema)
    ensures DecodeQuiz(JArray([JObject(map["question" := JString(question)])])).None?
  {
    var q := JObject(map["question" := JString(question)]);
    var ps := QuestionSchema.props;
    assert ps[0] == Prop("question", SString);
    assert ps[1].name == "options" && ps[2].name == "correctIndex";
    assert PropNames(ps) == {"question", "options", "correctIndex"};
    assert Conforms(q, QuestionSchema);
    assert !IsQuestionJson(JArray([q]).items[0]);
  }

  /** Suggestions: every string list conforms and reads back, and a reply decodes
      exactly when it is an array of strings. */
  lemma StringsEncodeDecode(ss: seq<string>, j: Json)
    ensures Conforms(StringsJson(ss), SuggestionsSchema) && DecodeStrings(StringsJson(ss)) == Some(ss)
    ensures DecodeStrings(j).Some? <==> Conforms(j, SuggestionsSchema)
    ensures DecodeStrings(j).Some? ==> StringsJson(DecodeStrings(j).value) == j
  {
    assert StringsOf(StringsJson(ss)) == ss;
    StringsShape(StringsJson(ss));
    StringsShape(j);
    if IsStringsJson(j) {
      assert StringsJson(StringsOf(j)).items == j.items;
    }
  }
}
