/** The create-key form of components/CreateAppId.tsx: the guards in front
    of a submission, the `isSubmitting`/`newAppId` state, the callback that
    reacts to the transaction's status, and the messages chosen for a
    dispatch error or a thrown exception. */
module CreateAppId {
  import opened JsValues
  import opened JsString
  import opened JsArray
  import opened Types
  import opened WalletContext

  const ConnectFirst := "Please connect your wallet and select an account."
  const NameMissing := "Please enter an application name."
  const NoBalance := "You don't have enough balance."
  const GenericFailure := "An error occurred while creating the Application Key. You can open the console to view advances logs"
  const KeyCreated := "Application Key created successfully!"
  const KeysPallet := "dataAvailability"
  const KeyCreatedEvent := "ApplicationKeyCreated"
  const TxFailedPrefix := "Transaction failed: "
  /** The text the chain's fee check puts in the error it throws. */
  const FeeFailure := "Inability to pay some fees"

  /** The status a transaction callback receives. `Pending` stands for
      every status that is neither in a block nor finalized. */
  datatype TxStatus = InBlock | Finalized | Pending

  /** A dispatch error: its `type`, and, for a module error, how the
      lookup of the decoded error (`findMetaError`, outside the model)
      ends: the `docs` it returns, or what it throws for an unknown module
      or error index. */
  datatype DispatchError = DispatchError(kind: string, moduleDocs: Option<Outcome<seq<string>>>)

  /** The connect check comes before the name check; `None` lets the
      submission go ahead. */
  function PreSubmitError(api: Option<Api>, account: Option<AccountWithProvenance>, appName: string): (r: Option<string>)
    ensures r.None? <==> api.Some? && account.Some? && appName != ""
    ensures (api.None? || account.None?) ==> r == Some(ConnectFirst)
    ensures api.Some? && account.Some? && appName == "" ==> r == Some(NameMissing)
  {
    if api.None? || account.None? then Some(ConnectFirst)
    else if appName == "" then Some(NameMissing)
    else None
  }

  /** The toast text of a dispatch error: the decoded docs joined by
      spaces for a module error, the error's type otherwise. A lookup that
      throws makes the whole expression throw, with no text. */
  function DispatchErrorMessage(e: DispatchError): (r: Outcome<string>)
    ensures r.Threw? <==> e.moduleDocs.Some? && e.moduleDocs.value.Threw?
    ensures r.Threw? ==> r.error == e.moduleDocs.value.error
    ensures r.Returned? ==> TxFailedPrefix <= r.value
    ensures e.moduleDocs.None? ==> r.Returned? && r.value[|TxFailedPrefix|..] == e.kind
    ensures e.moduleDocs.Some? && e.moduleDocs.value.Returned? ==>
              r == Returned(TxFailedPrefix + Join(e.moduleDocs.value.value, " "))
    ensures e.moduleDocs == Some(Returned([])) ==> r == Returned(TxFailedPrefix)
    ensures e.moduleDocs.Some? && e.moduleDocs.value.Returned? && |e.moduleDocs.value.value| == 1 ==>
              r.value[|TxFailedPrefix|..] == e.moduleDocs.value.value[0]
    ensures e.moduleDocs.Some? && e.moduleDocs.value.Returned? && |e.moduleDocs.value.value| > 0 ==>
              TxFailedPrefix + e.moduleDocs.value.value[0] <= r.value
  {
    if e.moduleDocs.None? then Returned(TxFailedPrefix + e.kind)
    else match e.moduleDocs.value
      case Threw(error) => Threw(error)
      case Returned(docs) =>
        assert docs == [] ==> TxFailedPrefix + Join(docs, " ") == TxFailedPrefix;
        Returned(TxFailedPrefix + Join(docs, " "))
  }

  /** A module error whose docs are three words reads as the sentence. */
  lemma DispatchErrorMessageJoinsDocs()
    ensures DispatchErrorMessage(DispatchError("Module", Some(Returned(["Name", "already", "taken."]))))
            == Returned(TxFailedPrefix + "Name already taken.")
  {
    assert Join(["taken."], " ") == "taken.";
    assert Join(["already", "taken."], " ") == "already taken.";
    assert Join(["Name", "already", "taken."], " ") == "Name already taken.";
  }

  /** The message the `catch` block shows for an exception thrown by the
      submission. Reading `includes` on a missing `message` throws again
      inside the `catch`, so there is then no message at all. */
  function SubmissionErrorMessage(error: Thrown): (r: Option<string>)
    ensures r.None? <==> error.message.None?
    ensures r == Some(NoBalance) <==>
              error.message.Some? && exists i :: OccursAt(error.message.value, FeeFailure, i)
    ensures r.Some? && r != Some(NoBalance) ==> r == Some(GenericFailure)
  {
    if error.message.None? then None
    else
      IncludesIffOccurs(error.message.value, FeeFailure);
      if Includes(error.message.value, FeeFailure) then Some(NoBalance) else Some(GenericFailure)
  }

  /** The event a successful creation emits. */
  predicate IsKeyCreated(ev: ChainEvent)
  {
    ev.section == KeysPallet && ev.methodName == KeyCreatedEvent
  }

  /** The record shown for a creation event: its `key` becomes the name. */
  function CreatedRecord(d: EventData): (r: ApplicationData)
    ensures r.id == d.id && r.owner == d.owner && r.name == d.key
  {
    ApplicationData(d.id, d.owner, d.key)
  }

  /** A creation event whose payload `toHuman()` throws on: the walk
      over the events stops there. */
  predicate Unreadable(ev: ChainEvent)
  {
    IsKeyCreated(ev) && ev.data.Threw?
  }

  /** Every creation event among `events` has a readable payload. */
  predicate AllReadable(events: seq<ChainEvent>)
  {
    forall i :: 0 <= i < |events| ==> !Unreadable(events[i])
  }

  /** The events the `forEach` gets through: all of them, or those before
      the first creation event whose payload throws. */
  function WalkedEvents(events: seq<ChainEvent>): (r: seq<ChainEvent>)
    ensures r <= events && AllReadable(r)
    ensures r == events <==> AllReadable(events)
    ensures |r| < |events| ==> Unreadable(events[|r|])
  {
    match FindIndex(events, Unreadable)
    case None => events
    case Some(k) => events[..k]
  }

  /** What `newAppId` holds after the events are walked in order from
      `prior`: each creation event overwrites what came before. */
  function LastKeyCreated(events: seq<ChainEvent>, prior: Option<ApplicationData>): Option<ApplicationData>
    requires AllReadable(events)
    decreases |events|
  {
    if events == [] then prior
    else
      var last := events[|events| - 1];
      assert !Unreadable(last);
      if IsKeyCreated(last) then Some(CreatedRecord(last.data.value))
      else
        var init := events[..|events| - 1];
        assert forall i :: 0 <= i < |init| ==> init[i] == events[i];
        LastKeyCreated(init, prior)
  }

  /** Without a creation event the walk keeps `prior`. */
  lemma {:induction false} LastKeyCreatedNone(events: seq<ChainEvent>, prior: Option<ApplicationData>)
    requires forall i :: 0 <= i < |events| ==> !IsKeyCreated(events[i])
    ensures AllReadable(events) && LastKeyCreated(events, prior) == prior
    decreases |events|
  {
    if events != [] {
      var init := events[..|events| - 1];
      assert forall i :: 0 <= i < |init| ==> init[i] == events[i];
      LastKeyCreatedNone(init, prior);
    }
  }

  /** With creation events, the walk ends on the record of the last one. */
  lemma {:induction false} LastKeyCreatedAt(events: seq<ChainEvent>, prior: Option<ApplicationData>, k: nat)
    requires AllReadable(events)
    requires k < |events| && IsKeyCreated(events[k])
    requires forall j :: k < j < |events| ==> !IsKeyCreated(events[j])
    ensures events[k].data.Returned?
    ensures LastKeyCreated(events, prior) == Some(CreatedRecord(events[k].data.value))
    decreases |events|
  {
    assert !Unreadable(events[k]);
    var n := |events| - 1;
    if k < n {
      var init := events[..n];
      assert init[k] == events[k];
      assert forall j :: 0 <= j < n ==> init[j] == events[j];
      LastKeyCreatedAt(init, prior, k);
    }
  }

  /** One success toast per creation event. */
  function SuccessToasts(events: seq<ChainEvent>): (r: seq<Toast>)
    ensures |r| == |Filter(events, IsKeyCreated)|
    ensures forall t :: t in r ==> t == SuccessToast(KeyCreated)
  {
    seq(|Filter(events, IsKeyCreated)|, _ => SuccessToast(KeyCreated))
  }

  /** One more readable event of the walk: its record, if any, goes on
      top, and so does its toast. */
  lemma WalkStep(events: seq<ChainEvent>, i: nat, prior: Option<ApplicationData>)
    requires i < |events| && AllReadable(events[..i]) && !Unreadable(events[i])
    ensures AllReadable(events[..i + 1])
    ensures LastKeyCreated(events[..i + 1], prior) ==
            if IsKeyCreated(events[i]) then Some(CreatedRecord(events[i].data.value)) else LastKeyCreated(events[..i], prior)
    ensures SuccessToasts(events[..i + 1]) ==
            SuccessToasts(events[..i]) + if IsKeyCreated(events[i]) then [SuccessToast(KeyCreated)] else []
  {
    assert events[..i + 1][..i] == events[..i];
    assert events[..i + 1] == events[..i] + [events[i]];
    assert forall j :: 0 <= j < i ==> events[..i + 1][j] == events[..i][j];
    FilterAppend(events[..i], [events[i]], IsKeyCreated);
    assert Filter([events[i]], IsKeyCreated) == if IsKeyCreated(events[i]) then [events[i]] else [];
  }

  /** The form's state. */
  class CreateAppIdForm {
    var appName: string
    var newAppId: Option<ApplicationData>
    var isSubmitting: bool

    /** An empty name, no created key, nothing in flight. */
    constructor ()
      ensures appName == "" && newAppId == None && !isSubmitting
    {
      appName := "";
      newAppId := None;
      isSubmitting := false;
    }

    /** The input's `onChange`. */
    method SetAppName(name: string)
      modifies this`appName
      ensures appName == name
    {
      appName := name;
    }

    /** The input and the button are disabled without a selected account
        and while a submission is in flight. `HandleCreateAppId` and
        `OnStatus` state how the form moves between the two. */
    function SubmitEnabled(account: Option<AccountWithProvenance>): (r: bool)
      reads this
      ensures r <==> account.Some? && !isSubmitting
    {
      account.Some? && !isSubmitting
    }

    /** `handleCreateAppId`. A failed guard shows its message and changes
        nothing. Otherwise the form is marked as submitting and the last
        created key is cleared; then the account's injector is looked up
        (outside the `try`, so a throw there leaves the form submitting)
        and the signed request is sent. `submission` is how awaiting
        `signAndSend` ends; its later status callbacks are `OnStatus`. */
    method HandleCreateAppId(api: Option<Api>, account: Option<AccountWithProvenance>,
                             web3FromSource: string -> Outcome<Injector>, submission: Outcome<()>)
      returns (toast: Option<Toast>, request: Option<SignRequest>, completion: Completion)
      modifies this`newAppId, this`isSubmitting
      ensures appName == old(appName)
      ensures PreSubmitError(api, account, appName).Some? ==>
                toast == Some(ErrorToast(PreSubmitError(api, account, appName).value)) &&
                request == None && completion == Resolved &&
                newAppId == old(newAppId) && isSubmitting == old(isSubmitting)
      ensures PreSubmitError(api, account, appName).None? ==> newAppId == None
      ensures PreSubmitError(api, account, appName).None? && web3FromSource(account.value.source).Threw? ==>
                toast == None && request == None && completion == Rejected && isSubmitting
      ensures PreSubmitError(api, account, appName).None? && web3FromSource(account.value.source).Returned? ==>
                request == Some(SignRequest(appName, account.value.address, 0, web3FromSource(account.value.source).value))
      ensures request.Some? && submission.Returned? ==>
                toast == None && completion == Resolved && isSubmitting
      ensures request.Some? && submission.Threw? && SubmissionErrorMessage(submission.error).Some? ==>
                toast == Some(ErrorToast(SubmissionErrorMessage(submission.error).value)) &&
                completion == Resolved && !isSubmitting
      ensures request.Some? && submission.Threw? && SubmissionErrorMessage(submission.error).None? ==>
                toast == None && completion == Rejected && isSubmitting
      ensures PreSubmitError(api, account, appName).None? ==>
                (!SubmitEnabled(account) <==> request.None? || submission.Returned? || completion == Rejected)
    {
      var guard := PreSubmitError(api, account, appName);
      if guard.Some? {
        toast, request, completion := Some(ErrorToast(guard.value)), None, Resolved;
        return;
      }
      isSubmitting := true;
      newAppId := None;
      var injector := web3FromSource(account.value.source);
      if injector.Threw? {
        toast, request, completion := None, None, Rejected;
        return;
      }
      request := Some(SignRequest(appName, account.value.address, 0, injector.value));
      if submission.Returned? {
        toast, completion := None, Resolved;
        return;
      }
      var message := SubmissionErrorMessage(submission.error);
      if message.None? {
        toast, completion := None, Rejected;
        return;
      }
      toast := Some(ErrorToast(message.value));
      isSubmitting := false;
      completion := Resolved;
    }

    /** The `signAndSend` status callback. Only an in-block or finalized
        status is acted on: a dispatch error shows its message; otherwise
        every creation event, in order, overwrites `newAppId` and shows a
        success toast. Either way the submission is over, unless the
        decoding of the error or of a creation event's payload throws: the
        exception leaves the callback (`Rejected`) before `isSubmitting` is
        cleared and before `unsub()`, and what the walk did before it
        stays. */
    method OnStatus(status: TxStatus, dispatchError: Option<DispatchError>, events: seq<ChainEvent>)
      returns (toasts: seq<Toast>, unsubscribed: bool, completion: Completion)
      modifies this`newAppId, this`isSubmitting
      ensures appName == old(appName)
      ensures status == Pending ==>
                toasts == [] && !unsubscribed && completion == Resolved &&
                newAppId == old(newAppId) && isSubmitting == old(isSubmitting)
      ensures status != Pending && dispatchError.Some? && DispatchErrorMessage(dispatchError.value).Returned? ==>
                toasts == [ErrorToast(DispatchErrorMessage(dispatchError.value).value)] && unsubscribed &&
                completion == Resolved && newAppId == old(newAppId) && !isSubmitting
      ensures status != Pending && dispatchError.Some? && DispatchErrorMessage(dispatchError.value).Threw? ==>
                toasts == [] && !unsubscribed && completion == Rejected &&
                newAppId == old(newAppId) && isSubmitting == old(isSubmitting)
      ensures status != Pending && dispatchError.None? ==>
                toasts == SuccessToasts(WalkedEvents(events)) &&
                newAppId == LastKeyCreated(WalkedEvents(events), old(newAppId))
      ensures status != Pending && dispatchError.None? && AllReadable(events) ==>
                unsubscribed && completion == Resolved && !isSubmitting
      ensures status != Pending && dispatchError.None? && !AllReadable(events) ==>
                !unsubscribed && completion == Rejected && isSubmitting == old(isSubmitting)
      ensures unsubscribed <==> completion == Resolved && status != Pending
      ensures unsubscribed ==> forall account :: SubmitEnabled(account) <==> account.Some?
    {
      toasts, unsubscribed, completion := [], false, Resolved;
      if status == Pending {
        return;
      }
      if dispatchError.Some? {
        var message := DispatchErrorMessage(dispatchError.value);
        if message.Threw? {
          completion := Rejected;
          return;
        }
        toasts := [ErrorToast(message.value)];
        isSubmitting := false;
        unsubscribed := true;
        return;
      }
      var i := 0;
      while i < |events|
        invariant 0 <= i <= |events| && AllReadable(events[..i])
        invariant newAppId == LastKeyCreated(events[..i], old(newAppId))
        invariant toasts == SuccessToasts(events[..i])
        invariant isSubmitting == old(isSubmitting)
      {
        if Unreadable(events[i]) {
          assert forall j :: 0 <= j < i ==> events[..i][j] == events[j];
          FindIndexFirst(events, Unreadable, i);
          completion := Rejected;
          return;
        }
        WalkStep(events, i, old(newAppId));
        if IsKeyCreated(events[i]) {
          newAppId := Some(CreatedRecord(events[i].data.value));
          toasts := toasts + [SuccessToast(KeyCreated)];
        }
        i := i + 1;
      }
      assert events[..i] == events;
      isSubmitting := false;
      unsubscribed := true;
    }
  }
}
