/**
  The proposal-creation form: editing the option list, the client-side checks
  run before submitting, and the state updates around the submission call.

  Date parsing and the submission call are oracles: `parse(s)` is
  `new Date(s).getTime()` in milliseconds, `None` for an invalid date (NaN);
  `call(s)` is what awaiting `createNewProposal` with the arguments `s` does.
*/
module CreateProposalForm {
  import opened Wrappers
  import opened JsValues
  import opened ClientTypes
  import VP = VotingProgram

  const TITLE_REQUIRED: string := "Please enter a title"
  const DESCRIPTION_REQUIRED: string := "Please enter a description"
  const OPTIONS_REQUIRED: string := "Please fill in all options"
  const END_BEFORE_START: string := "End time must be after start time"
  const CREATING: string := "Creating your proposal..."
  const CREATED: string := "Your proposal has been successfully created!"
  const CREATE_FAILED: string := "Failed to create your proposal. Please try again."
  const CREATE_ERROR: string := "An error occurred while creating your proposal."

  /** The arguments `createNewProposal` is called with; a `None` time is NaN. */
  datatype Submission = Submission(
    title: string, description: string, options: seq<string>, startTime: Option<int>, endTime: Option<int>)

  /** `Math.floor(ms / 1000)`; NaN stays NaN. */
  function Seconds(ms: Option<int>): (r: Option<int>)
    ensures r.None? <==> ms.None?
    ensures r.Some? ==> r.value * 1000 <= ms.value < r.value * 1000 + 1000
  {
    match ms
    case None => None
    case Some(v) => Some(FloorSeconds(v))
  }

  /** `start >= end` for two numbers that may be NaN: any comparison with NaN is false. */
  predicate NotBefore(start: Option<int>, end: Option<int>)
  {
    start.Some? && end.Some? && start.value >= end.value
  }

  /**
    The first client-side check that fails, by its message, or `None` when all
    pass: a blank title, then a blank description, then any blank option, then a
    start that is not before the end. Blank means made only of white space.
  */
  function FirstValidationFailure(title: string, description: string, options: seq<string>, start: Option<int>, end: Option<int>)
    : (r: Option<string>)
    ensures r == Some(TITLE_REQUIRED) <==> IsBlank(title)
    ensures r == Some(DESCRIPTION_REQUIRED) <==> !IsBlank(title) && IsBlank(description)
    ensures r == Some(OPTIONS_REQUIRED) <==>
              !IsBlank(title) && !IsBlank(description) && exists i :: 0 <= i < |options| && IsBlank(options[i])
    ensures r == Some(END_BEFORE_START) <==>
              && !IsBlank(title) && !IsBlank(description) && (forall i | 0 <= i < |options| :: !IsBlank(options[i]))
              && NotBefore(start, end)
    ensures r.None? <==>
              && !IsBlank(title) && !IsBlank(description) && (forall i | 0 <= i < |options| :: !IsBlank(options[i]))
              && !NotBefore(start, end)
  {
    TrimEmptyIffBlank(title);
    TrimEmptyIffBlank(description);
    forall i | 0 <= i < |options| ensures Trim(options[i]) == [] <==> IsBlank(options[i]) {
      TrimEmptyIffBlank(options[i]);
    }
    if Trim(title) == [] then Some(TITLE_REQUIRED)
    else if Trim(description) == [] then Some(DESCRIPTION_REQUIRED)
    else if exists i :: 0 <= i < |options| && Trim(options[i]) == [] then Some(OPTIONS_REQUIRED)
    else if NotBefore(start, end) then Some(END_BEFORE_START)
    else None
  }

  /** `options.filter((_, i) => i !== index)`. */
  function WithoutIndex(options: seq<string>, index: int): (r: seq<string>)
    ensures 0 <= index < |options| ==>
              && |r| == |options| - 1
              && (forall j | 0 <= j < index :: r[j] == options[j])
              && (forall j | index <= j < |r| :: r[j] == options[j + 1])
    ensures !(0 <= index < |options|) ==> r == options
    decreases |options|
  {
    if options == [] then []
    else (if index == 0 then [] else [options[0]]) + WithoutIndex(options[1..], index - 1)
  }

  /** Nothing beyond these checks limits a submission: the form passes a title and an option list the program refuses. */
  lemma NoUpperBounds()
    ensures var title := seq(VP.MAX_TITLE_LENGTH + 1, _ => 'a');
            var options := seq(VP.MAX_OPTIONS + 1, _ => "o");
            && FirstValidationFailure(title, "d", options, Some(0), Some(1)).None?
            && |title| > VP.MAX_TITLE_LENGTH && |options| > VP.MAX_OPTIONS
  {
    var title := seq(VP.MAX_TITLE_LENGTH + 1, _ => 'a');
    var options := seq(VP.MAX_OPTIONS + 1, _ => "o");
    NotBlank(title, 0);
    NotBlank("d", 0);
    forall i | 0 <= i < |options| ensures !IsBlank(options[i]) {
      NotBlank(options[i], 0);
    }
  }

  lemma NotBlank(s: string, i: nat)
    requires i < |s| && s[i] in "adeo"
    ensures !IsBlank(s)
  {
    assert !IsJsWhitespace(s[i]);
  }

  /** An invalid date passes the start-before-end check. */
  lemma InvalidDatePasses(end: Option<int>)
    ensures !NotBefore(None, end)
  {
  }

  /** The form's editable fields: title, description, options and the two date strings. */
  datatype FormFields = FormFields(
    title: string, description: string, options: seq<string>, startTime: string, endTime: string)

  /** The fields of a fresh form, to which a successful submission resets them. */
  const InitialFields: FormFields := FormFields("", "", ["", ""], "", "")

  class Form {
    var title: string
    var description: string
    var options: seq<string>
    var startTime: string
    var endTime: string
    var isSubmitting: bool
    var status: DialogStatus
    var message: string
    var hash: Option<string>
    var showDialog: bool
    /** Everything handed to `addError`, in order. */
    var errors: seq<ReportedError>
    /** Every call made to `createNewProposal`, in order. */
    var submitted: seq<Submission>

    /** The option list never has fewer than two entries. */
    predicate Valid()
      reads this
    {
      |options| >= 2
    }

    /** The editable fields. */
    function Fields(): FormFields
      reads this
    {
      FormFields(title, description, options, startTime, endTime)
    }

    /** The transaction dialog's fields. */
    function Dialog(): DialogState
      reads this
    {
      DialogState(isSubmitting, status, message, hash, showDialog)
    }

    /** The arguments the current fields would be submitted with. */
    function Pending(parse: string -> Option<int>): Submission
      reads this
    {
      Submission(title, description, options, Seconds(parse(startTime)), Seconds(parse(endTime)))
    }

    /** The first check the current fields fail, if any. */
    function ValidationFailure(parse: string -> Option<int>): Option<string>
      reads this
    {
      var s := Pending(parse);
      FirstValidationFailure(s.title, s.description, s.options, s.startTime, s.endTime)
    }

    constructor ()
      ensures Valid()
      ensures title == "" && description == "" && options == ["", ""] && startTime == "" && endTime == ""
      ensures !isSubmitting && status == StatusPending && message == "" && hash == None && !showDialog
      ensures errors == [] && submitted == []
    {
      title, description, options, startTime, endTime := "", "", ["", ""], "", "";
      isSubmitting, status, message, hash, showDialog := false, StatusPending, "", None, false;
      errors, submitted := [], [];
    }

    /** `handleAddOption`: one more empty option at the end. */
    method HandleAddOption()
      requires Valid()
      modifies this
      ensures Valid()
      ensures options == old(options) + [""]
      ensures Fields() == old(Fields()).(options := options) && Dialog() == old(Dialog())
      ensures errors == old(errors) && submitted == old(submitted)
    {
      options := options + [""];
    }

    /** `handleRemoveOption(index)`: with more than two options, entry `index` goes and the rest keep their order. */
    method HandleRemoveOption(index: int)
      requires Valid()
      modifies this
      ensures Valid()
      ensures |old(options)| > 2 ==> options == WithoutIndex(old(options), index)
      ensures |old(options)| <= 2 ==> options == old(options)
      ensures Fields() == old(Fields()).(options := options) && Dialog() == old(Dialog())
      ensures errors == old(errors) && submitted == old(submitted)
    {
      if |options| > 2 {
        options := WithoutIndex(options, index);
      }
    }

    /** `handleOptionChange(index, value)`: entry `index` becomes `value`, the others and the length stay. */
    method HandleOptionChange(index: int, value: string)
      requires Valid() && 0 <= index < |options|
      modifies this
      ensures Valid()
      ensures |options| == |old(options)| && options[index] == value
      ensures forall j | 0 <= j < |options| && j != index :: options[j] == old(options)[j]
      ensures Fields() == old(Fields()).(options := options) && Dialog() == old(Dialog())
      ensures errors == old(errors) && submitted == old(submitted)
    {
      var newOptions := options;
      newOptions := newOptions[index := value];
      options := newOptions;
    }

    /**
      `handleSubmit`: a failing check adds its notice and nothing else happens.
      Otherwise the dialog opens, `createNewProposal` is called once, and:
      success resets every field; a falsy `success` reports failure; a rejection,
      or a `null` result whose `success` cannot be read, reports an error and is
      handed to `addError`. The fields are kept unless the call succeeded, and the
      form is no longer submitting afterwards.
    */
    method HandleSubmit(parse: string -> Option<int>, call: Submission -> Call)
      requires Valid()
      modifies this
      ensures Valid()
      ensures old(ValidationFailure(parse)).Some? ==>
                && errors == old(errors) + [Invalid(old(ValidationFailure(parse)).value)]
                && submitted == old(submitted)
                && Fields() == old(Fields()) && Dialog() == old(Dialog())
      ensures old(ValidationFailure(parse)).None? ==> Settled(old(Pending(parse)), call(old(Pending(parse))))
    {
      var failure := ValidationFailure(parse);
      if failure.Some? {
        errors := errors + [Invalid(failure.value)];
        return;
      }
      var s := Pending(parse);
      assert s == old(Pending(parse));
      var result := call(s);
      Submit(s, result);
    }

    /**
      The state after submitting `s` to a call that did `result`: the call is
      recorded, the dialog is open and no longer submitting; success resets every
      field; otherwise the fields stay and the status is error, with the failure
      notice for a falsy `success` and the error notice, handed to `addError`, for
      a rejection or an unreadable result.
    */
    twostate predicate Settled(s: Submission, result: Call)
      reads this
    {
      && submitted == old(submitted) + [s]
      && !isSubmitting && showDialog
      && (Succeeded(result) ==>
            && status == StatusSuccess && message == CREATED && hash == result.value.transactionHash
            && Fields() == InitialFields && errors == old(errors))
      && (!Succeeded(result) ==>
            && status == StatusError && hash == old(hash) && Fields() == old(Fields())
            && (!ThrowsReadingSuccess(result) ==> message == CREATE_FAILED && errors == old(errors))
            && (ThrowsReadingSuccess(result) ==> message == CREATE_ERROR && errors == old(errors) + [Reported(result)]))
    }

    /** The part of `handleSubmit` after the checks passed: open the dialog, await the call, settle. */
    method Submit(s: Submission, result: Call)
      requires Valid()
      modifies this
      ensures Valid()
      ensures Settled(s, result)
    {
      Open(s);
      Settle(result);
    }

    /** Settling the open dialog by what the call did; the form is no longer submitting. */
    method Settle(result: Call)
      requires Valid()
      modifies this
      ensures Valid()
      ensures submitted == old(submitted) && showDialog == old(showDialog) && !isSubmitting
      ensures Succeeded(result) ==>
                && status == StatusSuccess && message == CREATED && hash == result.value.transactionHash
                && Fields() == InitialFields && errors == old(errors)
      ensures !Succeeded(result) ==>
                && status == StatusError && hash == old(hash) && Fields() == old(Fields())
                && (!ThrowsReadingSuccess(result) ==> message == CREATE_FAILED && errors == old(errors))
                && (ThrowsReadingSuccess(result) ==> message == CREATE_ERROR && errors == old(errors) + [Reported(result)])
    {
      if ThrowsReadingSuccess(result) {
        status := StatusError;
        message := CREATE_ERROR;
        errors := errors + [Reported(result)];
      } else if Succeeded(result) {
        status := StatusSuccess;
        message := CREATED;
        hash := result.value.transactionHash;
        title, description, options, startTime, endTime := "", "", ["", ""], "", "";
      } else {
        status := StatusError;
        message := CREATE_FAILED;
      }
      isSubmitting := false;
    }

    /** Opening the dialog in the pending state and making the call with `s`. */
    method Open(s: Submission)
      requires Valid()
      modifies this
      ensures Valid()
      ensures submitted == old(submitted) + [s]
      ensures isSubmitting && showDialog && status == StatusPending && message == CREATING
      ensures Fields() == old(Fields()) && errors == old(errors) && hash == old(hash)
    {
      isSubmitting := true;
      showDialog := true;
      status := StatusPending;
      message := CREATING;
      submitted := submitted + [s];
    }
  }

  /**
    The hook's `createNewProposal` resolves with the transaction signature or with
    `null`, never with a record, so the form never reaches its success branch.
  */
  function HookResult(signature: Option<string>): (c: Call)
    ensures !Succeeded(c)
    ensures signature.None? <==> ThrowsReadingSuccess(c)
  {
    match signature
    case None => Resolved(Null)
    case Some(sig) => Resolved(Str(sig))
  }
}
