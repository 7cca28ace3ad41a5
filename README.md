# ALAMBIC pipeline orchestration, modelled in Dafny

ALAMBIC is a Django application. A user configures an active-learning
pipeline in a four-step setup wizard (Data, Task, Model Settings, Active
Learning). The application then runs the pipeline as a chain of Celery tasks
and polls them until the chain finishes or fails. This project models the
parts of `alambic_app/views.py` and `alambic_app/forms.py` that decide
something:

- `job_status` (module `JobStatus`) reduces a pipeline's task statuses to one
  progress report. A SUCCESS root short-circuits. Otherwise the steps are
  scanned in ascending `step` order: the first FAILURE is returned at once, and
  the SUCCESSes are counted. The loop is the method `ScanSteps`. `Handle` is the
  whole view. Both are proved against the function `Respond`. `Respond` also
  returns the ids that were looked up, which is how "later steps are never
  queried" is stated. `sorted(..., key=step)` is a stable insertion sort,
  `SortByStep`.
- `pouring`, `chopping_ingredients` and `success` (module `Pages`) each
  require a GET with an `id` parameter and echo it to their template as
  `token`.
- `SetupView.get_form` and `SetupView.done` (module `SetupWizard`).
  `get_form` picks the form class for a step. For Data this depends on the
  cache counter, and for Model Settings on the Task step's `model_choice`.
  `done` packs the first three cleaned answers into one record and redirects
  to the chopping page of the new job.
- `GeneralInfoInputForm.clean` and the two choice fields
  `ClassificationParameters.model_choice` and `PreprocessingText.annotators`
  (module `Forms`).

Celery, the Django cache and the wizard's stored answers are passed in as
explicit inputs:

- Task status is a total function from task id to `TaskStatus`. Celery
  reports PENDING for an id it does not know, so the function is total.
- The task-reference table is a sequence of `TaskRef`, in the dictionary's own
  order.
- A status other than SUCCESS and FAILURE is `Other` with a state name
  that is neither of those two, such as PENDING.
- The cache is a `map<string, int>`.
- The cleaned answers are a map from step name to answers.
- The job id the queue assigns on submission is a parameter.

Some of the code's behaviour may be unexpected; the model keeps it as
written:

- A job whose task table is empty is not an error. It answers RUNNING with
  `current_step` 1 and `total_steps` 0.
- A root in FAILURE is not reported directly. The steps are still scanned.
- `get_form` does not reject an unknown step. At views.py:176 the
  `BadRequestError` is built but never raised, so the form is `None`. The
  Data step with a cache count of 0 takes the same path.
- `get_form` does not reject an unknown `model_choice`. It passes the value to
  `get_form_model`.
- `done` files the third form's answers (the Model Settings step in the
  wizard's step order) under the key `active`.

## Model

| member | source | states |
|---|---|---|
| `JobStatus.Handle` | alambic_app/views.py:53-83 | The view's outcome and its lookups, in order, equal the function `Respond` (views.py:53-83), on which the lemmas below are stated. The order is: a non-GET is refused, then a missing token, then a SUCCESS root, then the step scan. |
| `JobStatus.Body` | alambic_app/views.py:65-82 | The three JSON bodies: SUCCESS is {token, status}; FAILURE is {id, status}; RUNNING is {id, status, current_step, total_steps}. The `status` value tells the three apart. |
| `JobStatus.StateNameTests` | alambic_app/views.py:64-75 | A status is `Success` (`Failure`) iff Celery names it "SUCCESS" ("FAILURE"), and distinct statuses have distinct names. So the model's tests are the source's string comparisons. |
| `JobStatus.ScanSteps` | alambic_app/views.py:68-81 | The loop equals the closed form `Reduce`: it looks up each step in turn and returns at the first FAILURE (`FirstFailure`). Otherwise it reports RUNNING with (successes + 1, total). The looked-up ids stop at the failing step. |
| `JobStatus.SortByStep` | alambic_app/views.py:69 | The sorted table has the table's length and is in ascending step order. |
| `JobStatus.SortByStepPermutes` | alambic_app/views.py:69 | Sorting is a permutation of the table (equal multisets). |
| `JobStatus.SortByStepStable` | alambic_app/views.py:69 | The sort is stable: for every step value, the entries with that step keep their order in the table. |
| `JobStatus.FirstFailure` | alambic_app/views.py:72-73 | The result is the index of the first FAILURE in scan order, or the length if no step fails. No earlier step failed. |
| `JobStatus.CountSuccesses` | alambic_app/views.py:74-75 | The success count never exceeds the number of steps. |
| `JobStatus.CountSuccessesAppend` | alambic_app/views.py:74-75 | Only a SUCCESS adds one to the counter. Every other status leaves it unchanged. |
| `JobStatus.CountSuccessesSorted` | alambic_app/views.py:69-75 | The success count over the sorted steps equals the count over the table. |
| `JobStatus.SuccessShortCircuits` | alambic_app/views.py:63-65 | A SUCCESS root answers exactly {token, status: SUCCESS}, whatever the table and the step statuses are. Only the root is looked up. |
| `JobStatus.EarliestFailureWins` | alambic_app/views.py:69-73 | If the k-th sorted step is the first FAILURE, the answer is {id, status: FAILURE}. The lookups stop at step k. |
| `JobStatus.RunningProgress` | alambic_app/views.py:76-81 | With no failed step and a root that has not succeeded, the answer is RUNNING. Its current_step is the table's SUCCESS count + 1 and its total_steps is len(task_refs). So 1 <= current_step <= total_steps + 1. |
| `JobStatus.UnqueriedStatusesIrrelevant` | alambic_app/views.py:63-75 | Two status sources that agree on every looked-up id give the same answer. Statuses after the first failure, or after a SUCCESS root, are never consulted. |
| `JobStatus.ResponseKeys` | alambic_app/views.py:58-83 | A non-GET is refused with BadRequest. A GET without a token is refused with a validation error. A SUCCESS body names the job under `token`, and FAILURE and RUNNING bodies name it under `id`. |
| `Pages.Pouring` | alambic_app/views.py:43-50 | Renders `pouring.html` with {token: id} if and only if the request is a GET with `id`. Otherwise it raises BadRequest ("Missing job id" or "Invalid server request"). |
| `Pages.ChoppingIngredients` | alambic_app/views.py:86-97 | The same contract for `chopping.html`. |
| `Pages.Success` | alambic_app/views.py:117-128 | The same contract for `spirit.html`, with "Missing result id". |
| `Pages.OnlyIdMatters` | alambic_app/views.py:44-48 | Requests that agree on the verb and on `id` render the same page. |
| `SetupWizard.GetForm` | alambic_app/views.py:152-178 | A step that is not given defaults to the current one. The result is an error iff the step is Model Settings and Task has no model_choice. It is `None` iff the step is unknown, or is Data with a cache count <= 0. A returned form serves the resolved step and is bound to the given data. For Model Settings the form is `get_form_model` of that model_choice. |
| `SetupWizard.ModelSettingsDispatch` | alambic_app/views.py:166-169 | Model Settings gets the model form registered for the model_choice answered at Task, whatever the other steps' answers and the cache hold. |
| `SetupWizard.StaticSteps` | alambic_app/views.py:162-173 | Task and Active Learning get fixed forms that depend neither on the cache nor on earlier answers. Unknown steps get none. |
| `SetupWizard.Done` | alambic_app/views.py:188-197 | Succeeds iff at least three forms are done. The record unpacks to exactly the first three answers, and the redirect is `/chopping?id=` followed by the new job id. |
| `SetupWizard.DoneIgnoresLaterForms` | alambic_app/views.py:189-195 | Answers after the third form do not change what is submitted. |
| `Forms.CleanUpload` | alambic_app/forms.py:56-69 | Each rejection is one of the three errors, with its message and code. `not_found` is raised iff the file is missing. The missing-label error is raised iff the file opens and has no `label` column. |
| `Forms.CleanUploadAccepts` | alambic_app/forms.py:56-69 | The upload is accepted iff the file opens and the header has `label` and also `file` or `content`. |
| `Forms.CleanUploadErrorOrder` | alambic_app/forms.py:58-69 | A missing file gives `not_found` before any header check. A missing `label` is reported before missing content. Every header error has code `invalid`. |
| `Forms.CleanUploadIgnoresOrder` | alambic_app/forms.py:64-69 | Only the presence of `label`, `file` and `content` matters. Column order and other columns do not. |
| `Forms.ModelValues` | alambic_app/forms.py:105-108 | The model choices accept exactly SVM and RF. |
| `Forms.CleanModelChoice` | alambic_app/forms.py:110-119 | Accepted iff a value in {SVM, RF} is given, and returns it. A missing or empty value is `required`. Any other value is `invalid_choice`. |
| `Forms.AnnotatorValues` | alambic_app/forms.py:75-84 | The annotator choices accept exactly the eight listed keys. |
| `Forms.CleanAnnotators` | alambic_app/forms.py:86-90 | Accepted iff every value is a listed annotator (so no value is accepted too), and returns the values unchanged. Otherwise the first bad value is reported as `invalid_choice`. |
| `Forms.AnnotatorsAcceptSubsets` | alambic_app/forms.py:75-90 | A selection is accepted iff it is a subset of the eight annotator keys. |

## Left out

- Django plumbing is not modelled: `render`, templates, `JsonResponse` serialisation and `HttpResponseRedirect`. Responses are values (`StatusReport` with `Body` for its JSON keys, `Page`, `Submission`).
- The `about`, `documentation`, `index`, `distilling` and `tasting` pages are not modelled, nor `SetupView.get_context_data` and `SetupView.process_step`. They only render or pass data through.
- `upload` is not modelled. It submits a Celery task and redirects, which is external queue work.
- Celery is not modelled: `AsyncResult`, `tasks.get_pipeline_task_refs`, `tasks.get_task_signature`, and the task submission in `upload` and `done`. Statuses are an input function, the task table an input sequence, and the new job id an input string.
- `ScanSteps`/`Respond`: statuses are one snapshot per task id per request. The source reads `result.status` twice for every step that has not failed (views.py:72 and 74), and Celery may fetch a fresh state on each read. A change between the two reads is not modelled: a step that turns FAILURE there is neither returned nor counted, and one that turns SUCCESS is counted.
- Polling twice gives the same answer only when no status changed in between and, per the line above, none changed during either request. This follows from `Respond` being a function of the snapshot; no separate lemma is stated.
- The Django `cache` global is not modelled; its contents are a parameter.
- The formtools wizard internals are not modelled. `get_cleaned_data_for_step` is the `cleaned` map of steps whose data validated. The form classes from `get_form_data`, `get_form_task`, `get_form_model` and `get_form_AL` are tags. The `files` argument of `get_form` is unused by the source and is dropped.
- `clean` receives the file as a "found" flag plus the header's column names. Opening and reading the file with `csv.DictReader` is not modelled. Neither are the crash when `input_file` is missing from the cleaned data, nor the crash on an empty file whose `fieldnames` is `None`.
- The `FilePathField` directory scan and regex are not modelled. Neither are the `model` and `task` choice fields of `GeneralInfoInputForm`, whose choices come from `alambic_app/constantes.py`, which is not part of this model.
- `CleanModelChoice` and `CleanAnnotators` model only the value checks of Django's choice fields, with Django's messages. Django's string conversion and its `invalid_list` error for non-list input are not modelled.
- crispy-forms layouts and widget attributes are presentation only and are not modelled.
- `alambic_app/models/labels.py` and `alambic_app/models/results.py` are ORM schemas with no behaviour and are not modelled.
- `JobStatus.TaskRef` does not require the task names to be distinct, as dictionary keys are. No property depends on it.
