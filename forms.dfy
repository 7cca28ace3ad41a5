/**
  The validation of alambic_app/forms.py: the header check of the uploaded
  data file (`GeneralInfoInputForm.clean`) and the two choice fields the
  wizard's forms declare (`ClassificationParameters.model_choice`, a
  required single choice, and `PreprocessingText.annotators`, an optional
  multiple choice).

  Opening the file and reading its header are not modelled: `clean`
  receives whether the file could be opened and, if so, its column names.
*/
module Forms {
  import opened Wrappers

  /** Django's ValidationError: a message and a machine-readable code. */
  datatype ValidationError = ValidationError(message: string, code: string)

  // ---------------------------------------------------------------------------
  // GeneralInfoInputForm.clean

  const FILE_NOT_FOUND := ValidationError("File Not found", "not_found")
  const MISSING_LABEL := ValidationError("Missing a label column in the file", "invalid")
  const MISSING_CONTENT := ValidationError(
    "Missing a column with the content or the path to the file to import (\"content\" or \"file\" columns)",
    "invalid")

  /** A header the pipeline can import: a label column and a content or file column. */
  predicate ImportableHeader(fieldnames: seq<string>)
  {
    "label" in fieldnames && ("file" in fieldnames || "content" in fieldnames)
  }

  /**
    The checks of `clean`, in their order: the file must open, then the
    header must have `label`, then it must have `file` or `content`.
    `Ok(())` is a clean that raises nothing.
  */
  function CleanUpload(fileFound: bool, fieldnames: seq<string>): (r: Result<(), ValidationError>)
    ensures r.Err? ==> r.error == FILE_NOT_FOUND || r.error == MISSING_LABEL || r.error == MISSING_CONTENT
    ensures r == Err(FILE_NOT_FOUND) <==> !fileFound
    ensures r == Err(MISSING_LABEL) <==> fileFound && "label" !in fieldnames
  {
    if !fileFound then Err(FILE_NOT_FOUND)
    else if "label" !in fieldnames then Err(MISSING_LABEL)
    else if "file" !in fieldnames && "content" !in fieldnames then Err(MISSING_CONTENT)
    else Ok(())
  }

  /** The upload is accepted exactly when the file opens and its header is importable. */
  lemma CleanUploadAccepts(fileFound: bool, fieldnames: seq<string>)
    ensures CleanUpload(fileFound, fieldnames).Ok? <==> fileFound && ImportableHeader(fieldnames)
  {
  }

  /**
    Every rejection is one of the three errors, and the first failed check
    decides which: a missing file is reported before any header check, and
    a missing label before missing content.
  */
  lemma CleanUploadErrorOrder(fileFound: bool, fieldnames: seq<string>)
    ensures !fileFound ==> CleanUpload(fileFound, fieldnames) == Err(FILE_NOT_FOUND)
    ensures fileFound && "label" !in fieldnames ==> CleanUpload(fileFound, fieldnames) == Err(MISSING_LABEL)
    ensures fileFound && "label" in fieldnames && !ImportableHeader(fieldnames)
            ==> CleanUpload(fileFound, fieldnames) == Err(MISSING_CONTENT)
    ensures CleanUpload(fileFound, fieldnames).Err? ==>
            CleanUpload(fileFound, fieldnames).error.code == (if fileFound then "invalid" else "not_found")
  {
  }

  /** The columns `clean` looks at. */
  const CHECKED_COLUMNS := {"label", "file", "content"}

  /** Only membership matters: column order and other columns do not change the outcome. */
  lemma CleanUploadIgnoresOrder(fileFound: bool, fieldnames1: seq<string>, fieldnames2: seq<string>)
    requires forall c :: c in CHECKED_COLUMNS ==> (c in fieldnames1 <==> c in fieldnames2)
    ensures CleanUpload(fileFound, fieldnames1) == CleanUpload(fileFound, fieldnames2)
  {
  }

  // ---------------------------------------------------------------------------
  // Choice fields

  /** `choices` of a field: (value, label) pairs. */
  type Choices = seq<(string, string)>

  const MODEL_CHOICES: Choices := [("SVM", "SVM"), ("RF", "Random Forest")]

  const ANNOTATOR_CHOICES: Choices := [
    ("tokenize", "Tokenization"),
    ("ssplit", "Sentence Splitting"),
    ("pos", "POS Tagger"),
    ("lemma", "Lemma"),
    ("ner", "Named Entity Tag (non biomedical)"),
    ("ddparse", "Dependency Parse Tree"),
    ("parse", "Constituency and Dependency Parse Tree"),
    ("coref", "Coreference Resolution")
  ]

  /** The values a field accepts: the first components of its choices. */
  function ChoiceValues(choices: Choices): (vs: set<string>)
    ensures forall i :: 0 <= i < |choices| ==> choices[i].0 in vs
    ensures forall v :: v in vs ==> exists i :: 0 <= i < |choices| && choices[i].0 == v
  {
    set i | 0 <= i < |choices| :: choices[i].0
  }

  const REQUIRED := ValidationError("This field is required.", "required")

  function InvalidChoice(value: string): ValidationError
  {
    ValidationError("Select a valid choice. " + value + " is not one of the available choices.",
                    "invalid_choice")
  }

  /**
    The cleaning of `model_choice`, a required ChoiceField: no value (or an
    empty one) is refused as required, a value outside the choices as an
    invalid choice.
  */
  function CleanModelChoice(value: Option<string>): (r: Result<string, ValidationError>)
    ensures r.Ok? <==> value.Some? && value.value in {"SVM", "RF"}
    ensures r.Ok? ==> r.value == value.value
    ensures value.None? || value == Some("") ==> r == Err(REQUIRED)
    ensures value.Some? && value.value != "" && value.value !in {"SVM", "RF"} ==> r == Err(InvalidChoice(value.value))
  {
    ModelValues();
    if value.None? || value.value == "" then Err(REQUIRED)
    else if value.value !in ChoiceValues(MODEL_CHOICES) then Err(InvalidChoice(value.value))
    else Ok(value.value)
  }

  /**
    The cleaning of `annotators`, an optional MultipleChoiceField: the values
    are checked in order and the first one outside the choices is reported;
    no value at all is accepted.
  */
  function CleanAnnotators(values: seq<string>): (r: Result<seq<string>, ValidationError>)
    ensures r.Ok? <==> forall i :: 0 <= i < |values| ==> values[i] in ChoiceValues(ANNOTATOR_CHOICES)
    ensures r.Ok? ==> r.value == values
    ensures r.Err? ==> exists i :: 0 <= i < |values|
                         && values[i] !in ChoiceValues(ANNOTATOR_CHOICES)
                         && (forall j :: 0 <= j < i ==> values[j] in ChoiceValues(ANNOTATOR_CHOICES))
                         && r.error == InvalidChoice(values[i])
  {
    if values == [] then Ok([])
    else if values[0] !in ChoiceValues(ANNOTATOR_CHOICES) then Err(InvalidChoice(values[0]))
    else
      match CleanAnnotators(values[1..])
      case Ok(rest) => Ok([values[0]] + rest)
      case Err(e) => Err(e)
  }

  /** The model values accepted are exactly SVM and RF. */
  lemma ModelValues()
    ensures ChoiceValues(MODEL_CHOICES) == {"SVM", "RF"}
  {
    var vs := ChoiceValues(MODEL_CHOICES);
    forall v | v in vs ensures v in {"SVM", "RF"} {
      var i :| 0 <= i < |MODEL_CHOICES| && MODEL_CHOICES[i].0 == v;
    }
    assert MODEL_CHOICES[0].0 == "SVM" && MODEL_CHOICES[1].0 == "RF";
  }

  /** The annotator values accepted are exactly the eight listed. */
  lemma AnnotatorValues()
    ensures ChoiceValues(ANNOTATOR_CHOICES)
         == {"tokenize", "ssplit", "pos", "lemma", "ner", "ddparse", "parse", "coref"}
  {
    var vs := ChoiceValues(ANNOTATOR_CHOICES);
    var names := ["tokenize", "ssplit", "pos", "lemma", "ner", "ddparse", "parse", "coref"];
    assert forall i :: 0 <= i < 8 ==> ANNOTATOR_CHOICES[i].0 == names[i];
    forall v | v in vs ensures v in {"tokenize", "ssplit", "pos", "lemma", "ner", "ddparse", "parse", "coref"} {
      var i :| 0 <= i < |ANNOTATOR_CHOICES| && ANNOTATOR_CHOICES[i].0 == v;
      assert i == 0 || i == 1 || i == 2 || i == 3 || i == 4 || i == 5 || i == 6 || i == 7;
    }
    forall i | 0 <= i < 8 ensures names[i] in vs {
      assert ANNOTATOR_CHOICES[i].0 == names[i];
    }
    assert vs <= {"tokenize", "ssplit", "pos", "lemma", "ner", "ddparse", "parse", "coref"};
    assert names[0] in vs && names[1] in vs && names[2] in vs && names[3] in vs;
    assert names[4] in vs && names[5] in vs && names[6] in vs && names[7] in vs;
  }

  /** An accepted selection is a subset of the eight annotators, and every subset is accepted. */
  lemma AnnotatorsAcceptSubsets(values: seq<string>)
    ensures CleanAnnotators(values).Ok?
        <==> (set v | v in values) <= {"tokenize", "ssplit", "pos", "lemma", "ner", "ddparse", "parse", "coref"}
  {
    AnnotatorValues();
  }
}
