/**
  The setup wizard of alambic_app/views.py (`SetupView`): which form governs
  each step (`get_form`) and what is handed to the pipeline once every step
  is done (`done`).

  The form classes come from helpers outside this model (`get_form_data`,
  `get_form_task`, `get_form_model`, `get_form_AL`) and are represented by
  tags. The process-wide cache and the answers already cleaned for earlier
  steps are explicit inputs, and so is the id the task queue gives the
  submitted pipeline.
*/
module SetupWizard {
  import opened Wrappers

  const DATA := "Data"
  const TASK := "Task"
  const MODEL_SETTINGS := "Model Settings"
  const ACTIVE_LEARNING := "Active Learning"

  /** The wizard's steps, in the order they are shown. */
  const STEPS := [DATA, TASK, MODEL_SETTINGS, ACTIVE_LEARNING]

  /** A form's cleaned data: field name -> value. */
  type Answers = map<string, string>

  /** The form class chosen for a step; the model form depends on the chosen model. */
  datatype FormClass =
    | DataForm                    // get_form_data()
    | TaskForm                    // get_form_task()
    | ModelForm(choice: string)   // get_form_model(model_choice)
    | ActiveLearningForm          // get_form_AL()

  /** `form_class(data)`: a form of that class bound to the submitted data, if any. */
  datatype Form = Form(formClass: FormClass, data: Option<Answers>)

  datatype WizardError =
    | NoModelChoice  // the Task step has no cleaned model_choice: indexing it raises
    | TooFewForms    // fewer than three forms reach `done`: data_list[2] raises

  /** `cache.get(key, default)`. */
  function CacheGet(cache: map<string, int>, key: string, default: int): int
  {
    if key in cache then cache[key] else default
  }

  /** The step a form class serves. */
  function StepOf(c: FormClass): string
  {
    match c
    case DataForm => DATA
    case TaskForm => TASK
    case ModelForm(_) => MODEL_SETTINGS
    case ActiveLearningForm => ACTIVE_LEARNING
  }

  /** `get_cleaned_data_for_step("Task")['model_choice']`, when both lookups succeed. */
  function ModelChoice(cleaned: map<string, Answers>): Option<string>
  {
    if TASK in cleaned && "model_choice" in cleaned[TASK] then Some(cleaned[TASK]["model_choice"]) else None
  }

  /**
    `get_form(step, data)`: the form for `step` (the current step when none is
    given). The Data step has a form only when the cache counts loaded data;
    an unknown step has none either, since the error built for it is never
    raised.
  */
  function GetForm(step: Option<string>, current: string, cache: map<string, int>,
                   cleaned: map<string, Answers>, data: Option<Answers>): (r: Result<Option<Form>, WizardError>)
    ensures var s := if step.Some? then step.value else current;
            && (r.Err? <==> s == MODEL_SETTINGS && ModelChoice(cleaned).None?)
            && (r.Err? ==> r.error == NoModelChoice)
            && (r == Ok(None) <==> s !in STEPS || (s == DATA && CacheGet(cache, "data", 0) <= 0))
            && (r.Ok? && r.value.Some? ==> StepOf(r.value.value.formClass) == s && r.value.value.data == data)
            && (s == MODEL_SETTINGS && r.Ok? ==> r.value == Some(Form(ModelForm(ModelChoice(cleaned).value), data)))
  {
    var s := if step.Some? then step.value else current;
    if s == DATA && CacheGet(cache, "data", 0) > 0 then Ok(Some(Form(DataForm, data)))
    else if s == TASK then Ok(Some(Form(TaskForm, data)))
    else if s == MODEL_SETTINGS then
      match ModelChoice(cleaned)
      case Some(choice) => Ok(Some(Form(ModelForm(choice), data)))
      case None => Err(NoModelChoice)
    else if s == ACTIVE_LEARNING then Ok(Some(Form(ActiveLearningForm, data)))
    else Ok(None)
  }

  /**
    The Model Settings form is chosen by the model_choice answered at the
    Task step: each value v gets the model form registered for v, bound to
    the submitted data, whatever the other steps' answers and the cache hold.
  */
  lemma ModelSettingsDispatch(current: string, cache: map<string, int>, cleaned: map<string, Answers>,
                              v: string, data: Option<Answers>)
    requires TASK in cleaned && "model_choice" in cleaned[TASK] && cleaned[TASK]["model_choice"] == v
    ensures GetForm(Some(MODEL_SETTINGS), current, cache, cleaned, data)
         == Ok(Some(Form(ModelForm(v), data)))
  {
  }

  /**
    The form of every step other than Model Settings depends neither on
    earlier answers nor, except for Data, on the cache.
  */
  lemma StaticSteps(s: string, current: string, cache1: map<string, int>, cache2: map<string, int>,
                    cleaned1: map<string, Answers>, cleaned2: map<string, Answers>, data: Option<Answers>)
    requires s != MODEL_SETTINGS && s != DATA
    ensures GetForm(Some(s), current, cache1, cleaned1, data) == GetForm(Some(s), current, cache2, cleaned2, data)
    ensures GetForm(Some(s), current, cache1, cleaned1, data)
         == if s == TASK then Ok(Some(Form(TaskForm, data)))
            else if s == ACTIVE_LEARNING then Ok(Some(Form(ActiveLearningForm, data)))
            else Ok(None)
  {
  }

  // ---------------------------------------------------------------------------
  // done

  /** The record `done` builds from the cleaned data of the first three forms. */
  datatype Configuration = Configuration(data: Answers, task: Answers, active: Answers)

  /** What `done` returns: the configuration it submitted and where it redirects. */
  datatype Submission = Submission(configuration: Configuration, location: string)

  const CHOPPING_PREFIX := "/chopping?id="

  /** The cleaned data a configuration was packed from, in form order. */
  function Unpack(c: Configuration): seq<Answers>
  {
    [c.data, c.task, c.active]
  }

  /** `done`: pack the first three answers, submit them, redirect to the chopping page of the new job. */
  function Done(formList: seq<Answers>, jobId: string): (r: Result<Submission, WizardError>)
    ensures r.Ok? <==> |formList| >= 3
    ensures r.Err? ==> r.error == TooFewForms
    ensures r.Ok? ==> Unpack(r.value.configuration) == formList[..3]
    ensures r.Ok? ==> |CHOPPING_PREFIX| <= |r.value.location|
                      && r.value.location[..|CHOPPING_PREFIX|] == CHOPPING_PREFIX
                      && r.value.location[|CHOPPING_PREFIX|..] == jobId
  {
    if |formList| < 3 then Err(TooFewForms)
    else
      var form := Configuration(formList[0], formList[1], formList[2]);
      Ok(Submission(form, CHOPPING_PREFIX + jobId))
  }

  /** Answers after the third, the Active Learning step's included, do not reach the submitted record. */
  lemma DoneIgnoresLaterForms(formList: seq<Answers>, extra: seq<Answers>, jobId: string)
    requires |formList| >= 3
    ensures Done(formList + extra, jobId) == Done(formList, jobId)
  {
  }
}
