/** `DashboardComponent`: one plan's page. It edits the plan object in place (the
    same object the store lists) and saves it, and runs the quiz and the tutor
    chat. The dashboard's `plan` input and the store are fixed references. */
module Dashboard {
  import opened Wrappers
  import opened Text
  import opened PlanModel
  import opened Storage
  import opened Conversation
  import opened Gateway
  import opened Schemas

  /** The tasks of `currentModule()`: those of the selected module, or none when the
      index is past the modules (`modules[idx] || { tasks: [] }`). */
  function CurrentTasks(ms: seq<Module>, idx: int): seq<Task>
  {
    if 0 <= idx < |ms| then ms[idx].tasks else []
  }

  /** The title of `currentModule()`, which the quiz interpolates: the missing title
      of the fallback object prints as "undefined". */
  function CurrentTitle(ms: seq<Module>, idx: int): string
  {
    if 0 <= idx < |ms| then ms[idx].title else "undefined"
  }

  /** The checkboxes the page shows are exactly the tasks a toggle can reach. */
  lemma CurrentTasksAreToggleable(ms: seq<Module>, idx: int, t: int)
    ensures 0 <= t < |CurrentTasks(ms, idx)| <==> ValidTask(ms, idx, t)
    ensures !(0 <= idx < |ms|) ==> CurrentTasks(ms, idx) == [] && CurrentTitle(ms, idx) == "undefined"
  {
  }

  /** The nested `forEach` of `toggleTask`: one pass over every task of every module,
      counting all of them and the completed ones. */
  method CountTasks(ms: seq<Module>) returns (total: nat, completed: nat)
    ensures total == TaskCount(ms)
    ensures completed == CompletedCount(ms)
  {
    total, completed := 0, 0;
    var i := 0;
    while i < |ms|
      invariant 0 <= i <= |ms|
      invariant total == TaskCount(ms[..i])
      invariant completed == CompletedCount(ms[..i])
    {
      var ts := ms[i].tasks;
      var j := 0;
      while j < |ts|
        invariant 0 <= j <= |ts|
        invariant total == TaskCount(ms[..i]) + j
        invariant completed == CompletedCount(ms[..i]) + CompletedIn(ts[..j])
      {
        total := total + 1;
        if ts[j].completed {
          completed := completed + 1;
        }
        j := j + 1;
        assert ts[..j][..j - 1] == ts[..j - 1];
      }
      assert ts[..j] == ts;
      i := i + 1;
      assert ms[..i][..i - 1] == ms[..i - 1];
    }
    assert ms[..i] == ms;
  }

  /** The tutor's instruction for a plan's skill. */
  function TutorInstruction(skill: string): string
  {
    "You are an expert tutor for " + skill + "."
  }

  class DashboardView {
    const plan: Plan
    const store: PlanStore
    var currentModuleIdx: int
    var showQuiz: bool
    var quizQuestions: seq<QuizQuestion>
    var sageMessages: seq<Message>

    constructor (plan: Plan, store: PlanStore)
      ensures this.plan == plan && this.store == store
      ensures currentModuleIdx == 0 && !showQuiz && quizQuestions == [] && sageMessages == []
    {
      this.plan, this.store := plan, store;
      currentModuleIdx, showQuiz, quizQuestions, sageMessages := 0, false, [], [];
    }

    /** A module tab was clicked. */
    method SelectModule(idx: int)
      modifies this`currentModuleIdx
      ensures currentModuleIdx == idx
    {
      currentModuleIdx := idx;
    }

    /** `toggleTask(taskIdx)`: negate the task's flag in the selected module,
        recount the progress over every module, save the plan. Indices that reach
        no task make the first step throw, and nothing changes (`ok` false). After a
        toggle the store lists the plan object itself and has written its new value. */
    method ToggleTask(taskIdx: int) returns (ok: bool)
      modifies plan, store`plans, store`persisted
      ensures ok <==> old(ValidTask(plan.modules, currentModuleIdx, taskIdx))
      ensures !ok ==> unchanged(plan) && store.plans == old(store.plans) && store.persisted == old(store.persisted)
      ensures ok ==>
        && plan.modules == FlipTask(old(plan.modules), currentModuleIdx, taskIdx)
        && plan.progress == Progress(plan.modules)
        && plan.logs == old(plan.logs)
        && store.plans == Upsert(old(store.plans), plan)
        && store.persisted == Snapshot(store.plans)
      ensures ok ==>
        var k := FindIndex(store.plans, plan.id);
        0 <= k < |store.persisted| && store.plans[k] == plan && store.persisted[k] == plan.Record()
    {
      if !ValidTask(plan.modules, currentModuleIdx, taskIdx) {
        return false;
      }
      plan.modules := FlipTask(plan.modules, currentModuleIdx, taskIdx);
      var total, completed := CountTasks(plan.modules);
      plan.progress := if total == 0 then 0 else RoundedPercent(completed, total);
      store.SavePlan(plan);
      UpsertContains(old(store.plans), plan);
      ok := true;
    }

    /** `addLog(text)`: blank text is ignored; otherwise a journal entry with the
        given id and date is put first (a missing journal counts as empty) and the
        plan is saved. */
    method AddLog(text: string, id: string, date: string)
      modifies plan`logs, store`plans, store`persisted
      ensures IsBlank(text) ==>
        plan.logs == old(plan.logs) && store.plans == old(store.plans) && store.persisted == old(store.persisted)
      ensures !IsBlank(text) ==>
        && plan.logs == Some([Log(id, date, text, None, None)] + LogsOrEmpty(old(plan.logs)))
        && store.plans == Upsert(old(store.plans), plan)
        && store.persisted == Snapshot(store.plans)
    {
      if IsBlank(text) {
        return;
      }
      if plan.logs.None? {
        plan.logs := Some([]);
      }
      plan.logs := Some([Log(id, date, text, None, None)] + plan.logs.value);
      store.SavePlan(plan);
    }

    /** `generateQuiz` up to the call: the quiz opens empty; the topic asked about is
        the current module's title. */
    method StartQuiz() returns (topic: string)
      modifies this`showQuiz, this`quizQuestions
      ensures showQuiz && quizQuestions == []
      ensures topic == CurrentTitle(plan.modules, currentModuleIdx)
    {
      showQuiz := true;
      quizQuestions := [];
      topic := CurrentTitle(plan.modules, currentModuleIdx);
    }

    /** `generateQuiz` after the call: the questions are shown, or on failure the
        quiz closes (after an alert). */
    method ReceiveQuiz(reply: JsonReply<QuizQuestion>)
      modifies this`showQuiz, this`quizQuestions
      ensures GenerateQuiz(reply).Ok? ==> quizQuestions == GenerateQuiz(reply).value && showQuiz == old(showQuiz)
      ensures GenerateQuiz(reply).Err? ==> !showQuiz && quizQuestions == old(quizQuestions)
    {
      var r := GenerateQuiz(reply);
      if r.Ok? {
        quizQuestions := r.value;
      } else {
        showQuiz := false;
      }
    }

    /** The quiz's close and done buttons. */
    method CloseQuiz()
      modifies this`showQuiz
      ensures !showQuiz
    {
      showQuiz := false;
    }

    /** `askSage(text)` up to its await: blank text is ignored; otherwise the
        question is shown at once and sent in a new chat instructed with the plan's
        skill. */
    method SendSageQuestion(text: string) returns (request: Option<ChatRequest>)
      modifies this`sageMessages
      ensures IsBlank(text) ==> request == None && sageMessages == old(sageMessages)
      ensures !IsBlank(text) ==>
        && request == Some(ChatRequest(TutorInstruction(plan.skill), text))
        && sageMessages == old(sageMessages) + [Said(User, text)]
    {
      if IsBlank(text) {
        return None;
      }
      sageMessages := sageMessages + [Said(User, text)];
      request := Some(ChatRequest(TutorInstruction(plan.skill), text));
    }

    /** `askSage` after its await: the answer goes after whatever the chat holds by
        then; a failed call adds nothing. */
    method ReceiveSageReply(reply: TextReply)
      modifies this`sageMessages
      ensures reply.Answered? ==> sageMessages == old(sageMessages) + [Said(Model, reply.text)]
      ensures reply.Unanswered? ==> sageMessages == old(sageMessages)
    {
      if reply.Answered? {
        sageMessages := sageMessages + [Said(Model, reply.text)];
      }
    }
  }
}
