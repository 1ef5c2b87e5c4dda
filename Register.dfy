/**
 * The registration page of src/pages/Register.jsx: its form state, the
 * password-confirmation guard, and how a rejected registration becomes the
 * one error text the page shows.
 */
module Register {
  import opened Js
  import opened Auth

  const PasswordMismatch := "Passwords do not match."
  const RegistrationSucceeded := "Registration successful! You can now log in."
  const RegistrationFailed := "Registration failed. Please try again."

  // ---------------------------------------------------------------------------
  // Error text

  /** `${Field}: ${Messages.join(' ')}` */
  function EntryLine(field: string, messages: seq<string>): string {
    field + ": " + Join(messages, " ")
  }

  /** Every field of the error object holds an array of messages. */
  predicate AllLists(entries: seq<(string, ErrorField)>) {
    forall i :: 0 <= i < |entries| ==> entries[i].1.List?
  }

  /** `Object.entries(errorData).map(...)`: one line per field, in entry order. */
  function EntryLines(entries: seq<(string, ErrorField)>): (lines: seq<string>)
    requires AllLists(entries)
    ensures |lines| == |entries|
  {
    seq(|entries|, i requires 0 <= i < |entries| => EntryLine(entries[i].0, entries[i].1.items))
  }

  /** The flattened error object: the lines joined by a space; None when a
      field is not an array, for then `Messages.join` throws. */
  function FlattenErrors(entries: seq<(string, ErrorField)>): (r: Option<string>)
    ensures r.Some? <==> AllLists(entries)
    ensures r == Some("") <==> entries == []
    ensures r.Some? && entries != [] ==>
      |entries[0].0| + 2 <= |r.value| && r.value[..|entries[0].0| + 2] == entries[0].0 + ": "
  {
    if !AllLists(entries) then None
    else
      var lines := EntryLines(entries);
      var text := Join(lines, " ");
      assert entries != [] ==>
        |entries[0].0| + 2 <= |text| && text[..|entries[0].0| + 2] == entries[0].0 + ": " by {
        if entries != [] {
          var field := entries[0].0;
          JoinStartsWithHead(lines, " ");
          assert lines[0] == field + ": " + Join(entries[0].1.items, " ");
          assert text[..|field| + 2] == text[..|lines[0]|][..|field| + 2];
        }
      }
      Some(text)
  }

  /** The text `handleSubmit` shows for a rejected registration; None when
      working it out throws, so that the error text stays as it was. */
  function FailureMessage(err: ApiError): (m: Option<string>)
    ensures m.None? <==> err.responseData.Fields? && !AllLists(err.responseData.entries)
    ensures m == Some("") <==> err.responseData == Fields([])
  {
    match err.responseData
    case Absent => Some(RegistrationFailed)
    case Text(s) => if s == "" then Some(RegistrationFailed) else Some(s)
    case Fields(entries) => FlattenErrors(entries)
  }

  /** Where `Join` puts its i-th part. */
  function JoinOffset(parts: seq<string>, sep: string, i: nat): nat
    requires i < |parts|
  {
    if i == 0 then 0 else |Join(parts[..i], sep)| + |sep|
  }

  /** The joined text begins with the first part. */
  lemma JoinStartsWithHead(parts: seq<string>, sep: string)
    requires parts != []
    ensures |parts[0]| <= |Join(parts, sep)| && Join(parts, sep)[..|parts[0]|] == parts[0]
  {
    if |parts| > 1 {
      assert Join(parts, sep) == parts[0] + (sep + Join(parts[1..], sep));
    }
  }

  /** Each offset is one separator past the end of the previous part. */
  lemma JoinOffsetStep(parts: seq<string>, sep: string, i: nat)
    requires 0 < i < |parts|
    ensures JoinOffset(parts, sep, i - 1) + |parts[i - 1]| + |sep| == JoinOffset(parts, sep, i)
  {
    if i == 1 {
      assert parts[..1] == [parts[0]];
    } else {
      assert parts[..i] == parts[..i - 1] + [parts[i - 1]];
      JoinAppend(parts[..i - 1], [parts[i - 1]], sep);
    }
  }

  /** Each part stands in the joined text at its offset, and the offsets grow
      with the index: the parts appear whole and in order. */
  lemma JoinShowsPart(parts: seq<string>, sep: string, i: nat)
    requires i < |parts|
    ensures JoinOffset(parts, sep, i) + |parts[i]| <= |Join(parts, sep)|
    ensures Join(parts, sep)[JoinOffset(parts, sep, i)..JoinOffset(parts, sep, i) + |parts[i]|] == parts[i]
    ensures i > 0 ==> JoinOffset(parts, sep, i - 1) + |parts[i - 1]| + |sep| == JoinOffset(parts, sep, i)
  {
    var whole := Join(parts, sep);
    var k := JoinOffset(parts, sep, i);
    var tail := Join(parts[i..], sep);
    JoinStartsWithHead(parts[i..], sep);
    assert parts[i..][0] == parts[i];
    if i == 0 {
      assert parts[i..] == parts;
    } else {
      assert parts == parts[..i] + parts[i..];
      JoinAppend(parts[..i], parts[i..], sep);
      assert whole == Join(parts[..i], sep) + sep + tail;
      assert whole[k..] == tail;
      assert whole[k..k + |parts[i]|] == tail[..|parts[i]|];
      JoinOffsetStep(parts, sep, i);
    }
  }

  /** Every field's line stands whole in the flattened text, one space after
      the previous field's line. */
  lemma FlattenShowsEveryField(entries: seq<(string, ErrorField)>, i: nat)
    requires AllLists(entries) && i < |entries|
    ensures var text := FlattenErrors(entries).value;
      var line := EntryLine(entries[i].0, entries[i].1.items);
      var k := JoinOffset(EntryLines(entries), " ", i);
      k + |line| <= |text| && text[k..k + |line|] == line
  {
    JoinShowsPart(EntryLines(entries), " ", i);
  }

  /** Two groups of fields are flattened separately and joined by a space. */
  lemma FlattenAppend(a: seq<(string, ErrorField)>, b: seq<(string, ErrorField)>)
    requires AllLists(a) && AllLists(b) && a != [] && b != []
    ensures FlattenErrors(a + b) == Some(FlattenErrors(a).value + " " + FlattenErrors(b).value)
  {
    assert AllLists(a + b) by {
      forall i | 0 <= i < |a + b| ensures (a + b)[i].1.List? {
        if i >= |a| { assert (a + b)[i] == b[i - |a|]; }
      }
    }
    assert EntryLines(a + b) == EntryLines(a) + EntryLines(b);
    JoinAppend(EntryLines(a), EntryLines(b), " ");
  }

  /** The three-way choice: no data (or a falsy empty text) gives the generic
      text, a non-empty text is shown as sent, an object is flattened. */
  lemma FailureMessageChoice(err: ApiError)
    ensures err.responseData.Absent? || err.responseData == Text("") ==>
      FailureMessage(err) == Some(RegistrationFailed)
    ensures err.responseData.Text? && err.responseData.s != "" ==>
      FailureMessage(err) == Some(err.responseData.s)
    ensures err.responseData.Fields? ==>
      (FailureMessage(err).Some? <==> AllLists(err.responseData.entries))
    ensures err.responseData == Fields([]) ==> FailureMessage(err) == Some("")
  {
  }

  /** A typical field-error object, flattened: `{email: ["Invalid."],
      username: ["Taken.", "Short."]}` becomes
      "email: Invalid. username: Taken. Short.". */
  lemma FlattenExample(f1: string, m1: string, f2: string, m2: string, m3: string)
    ensures FlattenErrors([(f1, List([m1])), (f2, List([m2, m3]))])
      == Some(f1 + ": " + m1 + " " + f2 + ": " + m2 + " " + m3)
  {
    var entries := [(f1, List([m1])), (f2, List([m2, m3]))];
    assert AllLists(entries);
    var first := EntryLine(f1, [m1]);
    var second := EntryLine(f2, [m2, m3]);
    assert Join([m2, m3], " ") == m2 + " " + m3 by {
      assert [m2, m3][1..] == [m3];
      assert Join([m3], " ") == m3;
    }
    assert EntryLines(entries) == [first, second];
    assert Join([first, second], " ") == first + " " + second by {
      assert [first, second][1..] == [second];
      assert Join([second], " ") == second;
    }
    assert first == f1 + ": " + m1;
    assert second == f2 + ": " + (m2 + " " + m3);
    assert FlattenErrors(entries) == Some(first + " " + second);
    assert (f1 + ": " + m1) + " " + (f2 + ": " + (m2 + " " + m3))
      == f1 + ": " + m1 + " " + f2 + ": " + m2 + " " + m3;
  }

  // ---------------------------------------------------------------------------
  // Form state

  /** A value of `formData`: a text input's value or a checkbox's state. */
  datatype FormValue = Input(s: string) | Flag(b: bool)

  datatype InputKind = Checkbox | OtherInput

  /** What `handleChange` reads of its event: `e.target.name`, `.type`, `.value`, `.checked`. */
  datatype ChangeEvent = ChangeEvent(name: string, kind: InputKind, value: string, checked: bool)

  const InitialForm: map<string, FormValue> := map[
    "email" := Input(""), "username" := Input(""), "password" := Input(""),
    "password_confirmation" := Input(""), "first_name" := Input(""),
    "last_name" := Input(""), "is_artist" := Flag(false)]

  /** The value `handleChange` stores: `checked` for a checkbox, `value` otherwise. */
  function ChangedValue(e: ChangeEvent): FormValue {
    if e.kind == Checkbox then Flag(e.checked) else Input(e.value)
  }

  class RegisterForm {
    var formData: map<string, FormValue>
    var error: string
    var success: string
    var isLoading: bool

    /** `handleChange` only ever adds or replaces keys, so the initial fields stay. */
    ghost predicate Valid()
      reads this
    {
      InitialForm.Keys <= formData.Keys
    }

    predicate PasswordsMatch()
      requires Valid()
      reads this
    {
      formData["password"] == formData["password_confirmation"]
    }

    constructor ()
      ensures Valid() && formData == InitialForm
      ensures error == "" && success == "" && !isLoading
    {
      formData := InitialForm;
      error, success, isLoading := "", "", false;
    }

    /** `handleChange(e)`: replaces the named field and nothing else. */
    method HandleChange(e: ChangeEvent)
      requires Valid()
      modifies this
      ensures Valid()
      ensures formData == old(formData)[e.name := ChangedValue(e)]
      ensures e.kind == Checkbox ==> formData[e.name] == Flag(e.checked)
      ensures e.kind == OtherInput ==> formData[e.name] == Input(e.value)
      ensures forall k :: k in old(formData) && k != e.name ==> k in formData && formData[k] == old(formData)[k]
      ensures error == old(error) && success == old(success) && isLoading == old(isLoading)
    {
      formData := formData[e.name := ChangedValue(e)];
    }

    /** `handleSubmit` up to the `await`: clears both messages, stops on a
        password mismatch, otherwise marks the form busy and hands the form
        data to `register`. */
    method BeginSubmit() returns (payload: Option<map<string, FormValue>>)
      requires Valid()
      modifies this
      ensures Valid() && formData == old(formData)
      ensures success == ""
      ensures !old(PasswordsMatch()) ==>
        payload == None && error == PasswordMismatch && isLoading == old(isLoading)
      ensures old(PasswordsMatch()) ==>
        payload == Some(formData) && error == "" && isLoading
    {
      error := "";
      success := "";
      if formData["password"] != formData["password_confirmation"] {
        error := PasswordMismatch;
        payload := None;
        return;
      }
      isLoading := true;
      payload := Some(formData);
    }

    /** `handleSubmit` after the `await`: the success text, or the error text
        of the rejection, and the form is no longer busy either way. */
    method FinishSubmit(res: ApiResult<Body>)
      modifies this
      ensures formData == old(formData) && !isLoading
      ensures res.Ok? ==> success == RegistrationSucceeded && error == old(error)
      ensures res.Err? ==> success == old(success)
      ensures res.Err? && FailureMessage(res.error).Some? ==> error == FailureMessage(res.error).value
      ensures res.Err? && FailureMessage(res.error).None? ==> error == old(error)
    {
      match res {
        case Ok(_) =>
          success := RegistrationSucceeded;
        case Err(err) =>
          var message := FailureMessage(err);
          if message.Some? {
            error := message.value;
          }
      }
      isLoading := false;
    }
  }
}
