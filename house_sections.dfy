/** The delete-outcome handling of the house-sections admin view.

    The view lists the sections of one house and lets the administrator delete
    one. After the server acknowledges a delete, the view re-reads the list a
    bounded number of times, pausing between reads, and then announces success.
    After the server rejects a delete, the error payload picks one of two
    failure notifications.

    The list read, the timer and the notification sink are external. They are
    modelled as steps that append an Effect to an ordered log, so that what the
    view does to the outside world, and in which order, can be stated and proved.
 */
module HouseSections {

  datatype Option<T> = None | Some(value: T)

  /** A house section; the view interprets nothing about it but its identity. */
  datatype Section = Section(id: string)

  datatype Variant = Default | Destructive

  /** What the notification sink receives. */
  datatype Toast = Toast(variant: Variant, title: Option<string>, description: string)

  /** The structured body of a rejected delete. */
  datatype ErrorPayload = ErrorPayload(code: string, message: string)

  /** A rejected delete; `response` is None when the error carries no
      `response.data`, whether the response itself or only its data is missing. */
  datatype DeleteError = DeleteError(response: Option<ErrorPayload>)

  /** How the server answered one delete request. */
  datatype DeleteOutcome = Acked | Rejected(error: DeleteError)

  /** One observable action of the view, in the order it happens. */
  datatype Effect =
    | DeleteRequested(houseId: string, houseSectionId: string)
    | Refetch
    | Sleep(ms: nat)
    | Log(error: DeleteError)
    | Notify(toast: Toast)

  /** The error handler either selects a notification (and says whether it logs
      first) or throws, because it reads a field of an absent payload. */
  datatype ErrorHandling = Handled(toast: Toast, logged: bool) | Threw

  const MaxRetries: nat := 10
  const SleepMs: nat := 1000
  const NotFoundCode: string := "NOT_FOUND_HOUSE_SECTION"
  const SuccessMessage: string := "성공적으로 하우스 동이 삭제되었습니다."
  const FailureTitle: string := "하우스 동 삭제에 실패하였습니다."
  const ContactAdmin: string := "관리자에게 문의하세요."

  const SuccessToast: Toast := Toast(Default, None, SuccessMessage)

  // ---------------------------------------------------------------------------
  // The wait loop's guard
  // ---------------------------------------------------------------------------

  /** `houseSections?.length`: undefined when the list has not been loaded. */
  function LengthOf(list: Option<seq<Section>>): Option<nat>
  {
    match list
    case None => None
    case Some(s) => Some(|s|)
  }

  /** The loop condition: retries left and the length still equal to the
      snapshot. When both sides of the comparison are read from the same
      binding, the condition is just the retry bound. */
  function WaitGuard(retries: nat, snapshot: Option<nat>, current: Option<nat>): (b: bool)
    ensures b ==> retries < MaxRetries
    ensures snapshot == current ==> (b <==> retries < MaxRetries)
    ensures snapshot != current ==> !b
  {
    retries < MaxRetries && snapshot == current
  }

  // ---------------------------------------------------------------------------
  // Effect traces
  // ---------------------------------------------------------------------------

  /** The notifications in an effect log, in order. */
  function Notifications(effects: seq<Effect>): seq<Toast>
  {
    if effects == [] then []
    else (if effects[0].Notify? then [effects[0].toast] else []) + Notifications(effects[1..])
  }

  lemma {:induction false} NotificationsAppend(a: seq<Effect>, b: seq<Effect>)
    ensures Notifications(a + b) == Notifications(a) + Notifications(b)
  {
    if a == [] {
      assert a + b == b;
    } else {
      var c := a + b;
      assert c[0] == a[0] && c[1..] == a[1..] + b;
      NotificationsAppend(a[1..], b);
      assert Notifications(c) == Notifications([a[0]]) + Notifications(c[1..]);
    }
  }

  lemma NotificationsOfOne(e: Effect)
    ensures Notifications([e]) == if e.Notify? then [e.toast] else []
  {
    assert [e][1..] == [];
  }

  /** `n` passes of the loop body: one refetch, then one pause. */
  function WaitPasses(n: nat): (r: seq<Effect>)
    ensures |r| == 2 * n
    ensures forall k :: 0 <= k < |r| ==> r[k] == if k % 2 == 0 then Refetch else Sleep(SleepMs)
  {
    if n == 0 then [] else WaitPasses(n - 1) + [Refetch, Sleep(SleepMs)]
  }

  /** `n` passes hold exactly `n` refetches, `n` pauses and no notification. */
  lemma {:induction false} WaitPassesCounts(n: nat)
    ensures multiset(WaitPasses(n))[Refetch] == n
    ensures multiset(WaitPasses(n))[Sleep(SleepMs)] == n
    ensures Notifications(WaitPasses(n)) == []
  {
    if n > 0 {
      WaitPassesCounts(n - 1);
      NotificationsAppend(WaitPasses(n - 1), [Refetch, Sleep(SleepMs)]);
      assert Notifications([Refetch, Sleep(SleepMs)]) == [] by {
        NotificationsOfOne(Refetch);
        NotificationsOfOne(Sleep(SleepMs));
        NotificationsAppend([Refetch], [Sleep(SleepMs)]);
        assert [Refetch] + [Sleep(SleepMs)] == [Refetch, Sleep(SleepMs)];
      }
    }
  }

  /** Everything the success handler does: the full retry budget of passes,
      then the success notification. */
  function SuccessEffects(): seq<Effect>
  {
    WaitPasses(MaxRetries) + [Notify(SuccessToast)]
  }

  /** The success handler makes exactly ten refetches and ten pauses and emits
      exactly one notification, the non-destructive success message, last. */
  lemma SuccessNotifiesOnce()
    ensures multiset(SuccessEffects())[Refetch] == MaxRetries
    ensures multiset(SuccessEffects())[Sleep(SleepMs)] == MaxRetries
    ensures |SuccessEffects()| == 2 * MaxRetries + 1
    ensures SuccessEffects()[2 * MaxRetries] == Notify(SuccessToast)
    ensures Notifications(SuccessEffects()) == [Toast(Default, None, SuccessMessage)]
  {
    WaitPassesCounts(MaxRetries);
    NotificationsAppend(WaitPasses(MaxRetries), [Notify(SuccessToast)]);
    NotificationsOfOne(Notify(SuccessToast));
  }

  // ---------------------------------------------------------------------------
  // The error handler
  // ---------------------------------------------------------------------------

  /** Classifies a rejected delete. The not-found code shows the server's own
      message and returns before logging; any other code is logged and shows
      the fixed contact-the-administrator text. Both are destructive and carry
      the same title. Without a payload the handler throws and shows nothing. */
  function OnError(err: DeleteError): (r: ErrorHandling)
    ensures r.Threw? <==> err.response.None?
    ensures r.Handled? ==> r.toast.variant == Destructive && r.toast.title == Some(FailureTitle)
    ensures r.Handled? ==> (r.logged <==> err.response.value.code != NotFoundCode)
    ensures r.Handled? && !r.logged ==> r.toast.description == err.response.value.message
    ensures r.Handled? && r.logged ==> r.toast.description == ContactAdmin
  {
    match err.response
    case None => Threw
    case Some(data) =>
      if data.code == NotFoundCode then
        Handled(Toast(Destructive, Some(FailureTitle), data.message), false)
      else
        Handled(Toast(Destructive, Some(FailureTitle), ContactAdmin), true)
  }

  /** Everything the error handler does, in order. */
  function ErrorEffects(err: DeleteError): seq<Effect>
  {
    match OnError(err)
    case Threw => []
    case Handled(t, logged) => (if logged then [Log(err)] else []) + [Notify(t)]
  }

  /** Everything one delete invocation does: the request, then the handler of
      whichever answer the server gave. */
  function InvocationEffects(houseId: string, houseSectionId: string, outcome: DeleteOutcome): seq<Effect>
  {
    [DeleteRequested(houseId, houseSectionId)]
    + match outcome
      case Acked => SuccessEffects()
      case Rejected(err) => ErrorEffects(err)
  }

  /** The error handler never refetches or waits, logs once only for an
      unrecognised code and then before its toast, and emits one destructive
      toast unless it threw. */
  lemma ErrorNotifiesOnce(err: DeleteError)
    ensures forall e :: e in ErrorEffects(err) ==> !e.Refetch? && !e.Sleep?
    ensures OnError(err).Threw? ==> ErrorEffects(err) == []
    ensures OnError(err).Handled? ==>
              Notifications(ErrorEffects(err)) == [OnError(err).toast]
              && ErrorEffects(err)[|ErrorEffects(err)| - 1] == Notify(OnError(err).toast)
    ensures OnError(err).Handled? ==>
              (Log(err) in ErrorEffects(err) <==> err.response.value.code != NotFoundCode)
    ensures OnError(err).Handled? ==>
              multiset(ErrorEffects(err))[Log(err)] == (if err.response.value.code != NotFoundCode then 1 else 0)
              && |ErrorEffects(err)| == (if err.response.value.code != NotFoundCode then 2 else 1)
  {
    match OnError(err)
    case Threw =>
    case Handled(t, logged) =>
      if logged {
        assert ErrorEffects(err) == [Log(err)] + [Notify(t)];
        assert ErrorEffects(err) == [Log(err), Notify(t)];
        NotificationsAppend([Log(err)], [Notify(t)]);
        NotificationsOfOne(Log(err));
      } else {
        assert ErrorEffects(err) == [Notify(t)];
      }
      NotificationsOfOne(Notify(t));
  }

  /** Each delete invocation starts with the request carrying the view's house
      and the given section, and unless the error handler threw it emits
      exactly one toast: destructive exactly when the delete was rejected. The
      wait loop runs only on the success branch. */
  lemma {:induction false} OneToastPerInvocation(houseId: string, houseSectionId: string, outcome: DeleteOutcome)
    ensures InvocationEffects(houseId, houseSectionId, outcome)[0] == DeleteRequested(houseId, houseSectionId)
    ensures outcome.Acked? ==>
              Notifications(InvocationEffects(houseId, houseSectionId, outcome)) == [SuccessToast]
    ensures outcome.Rejected? && OnError(outcome.error).Handled? ==>
              Notifications(InvocationEffects(houseId, houseSectionId, outcome)) == [OnError(outcome.error).toast]
              && OnError(outcome.error).toast.variant == Destructive
              && Refetch !in InvocationEffects(houseId, houseSectionId, outcome)
    ensures outcome.Rejected? && OnError(outcome.error).Threw? ==>
              InvocationEffects(houseId, houseSectionId, outcome) == [DeleteRequested(houseId, houseSectionId)]
  {
    var head := [DeleteRequested(houseId, houseSectionId)];
    NotificationsOfOne(DeleteRequested(houseId, houseSectionId));
    match outcome
    case Acked =>
      SuccessNotifiesOnce();
      NotificationsAppend(head, SuccessEffects());
    case Rejected(err) =>
      ErrorNotifiesOnce(err);
      NotificationsAppend(head, ErrorEffects(err));
      assert InvocationEffects(houseId, houseSectionId, outcome) == head + ErrorEffects(err);
  }

  // ---------------------------------------------------------------------------
  // The view and its handlers
  // ---------------------------------------------------------------------------

  class HouseSectionsView {
    const houseId: string
    /** The list query's data; a refetch replaces it. */
    var houseSections: Option<seq<Section>>
    /** What the view has done to the outside world so far. */
    var effects: seq<Effect>

    constructor (houseId: string, initial: Option<seq<Section>>)
      ensures this.houseId == houseId && houseSections == initial && effects == []
    {
      this.houseId := houseId;
      houseSections := initial;
      effects := [];
    }

    /** Re-reads the list; `response` is the server's answer. */
    method RefetchList(response: Option<seq<Section>>)
      modifies this
      ensures houseSections == response && effects == old(effects) + [Refetch]
    {
      houseSections := response;
      effects := effects + [Refetch];
    }

    method Pause(ms: nat)
      modifies this`effects
      ensures effects == old(effects) + [Sleep(ms)]
    {
      effects := effects + [Sleep(ms)];
    }

    method Emit(e: Effect)
      modifies this`effects
      ensures effects == old(effects) + [e]
    {
      effects := effects + [e];
    }

    /** The success handler. `server(k)` is the list returned by the k-th
        refetch. The snapshot and the loop condition both read the list
        captured when the handler was created; refetching replaces the view's
        list but not that binding, so every pass sees the same length and the
        loop runs the whole retry budget. */
    method OnDeleteSuccess(server: nat -> Option<seq<Section>>) returns (retries: nat)
      modifies this
      ensures retries == MaxRetries
      ensures effects == old(effects) + SuccessEffects()
      ensures houseSections == server(MaxRetries - 1)
    {
      retries := 0;
      var captured := houseSections;
      var houseSectionsLength := LengthOf(captured);
      while WaitGuard(retries, houseSectionsLength, LengthOf(captured))
        invariant retries <= MaxRetries
        invariant effects == old(effects) + WaitPasses(retries)
        invariant retries > 0 ==> houseSections == server(retries - 1)
        decreases MaxRetries - retries
      {
        RefetchList(server(retries));
        Pause(SleepMs);
        retries := retries + 1;
      }
      Emit(Notify(SuccessToast));
    }

    /** The error handler: log when the classification says so, then toast;
        `threw` when the payload was absent. */
    method OnDeleteError(err: DeleteError) returns (threw: bool)
      modifies this`effects
      ensures threw <==> err.response.None?
      ensures effects == old(effects) + ErrorEffects(err)
    {
      match OnError(err)
      case Threw =>
        threw := true;
      case Handled(t, logged) =>
        threw := false;
        if logged {
          Emit(Log(err));
        }
        Emit(Notify(t));
    }

    /** Deletes one section: the request carries this view's house and the
        given section unchanged, and the server's answer selects the handler. */
    method OnDeleteSubmit(houseSectionId: string, outcome: DeleteOutcome, server: nat -> Option<seq<Section>>)
      returns (threw: bool)
      modifies this
      ensures threw <==> outcome.Rejected? && outcome.error.response.None?
      ensures effects == old(effects) + InvocationEffects(houseId, houseSectionId, outcome)
      ensures houseSections == if outcome.Acked? then server(MaxRetries - 1) else old(houseSections)
    {
      Emit(DeleteRequested(houseId, houseSectionId));
      match outcome
      case Acked =>
        var _ := OnDeleteSuccess(server);
        threw := false;
      case Rejected(err) =>
        threw := OnDeleteError(err);
    }
  }

  /** Three sections are listed; the delete of "s2" is acknowledged, and the
      server already lists two sections from the third re-read on. The wait
      does not stop there: it makes all ten passes before the success toast. */
  method ScenarioDeleteSecond()
  {
    var three := [Section("s1"), Section("s2"), Section("s3")];
    var two := [Section("s1"), Section("s3")];
    var view := new HouseSectionsView("h1", Some(three));
    var threw := view.OnDeleteSubmit("s2", Acked, k => if k < 2 then Some(three) else Some(two));
    assert !threw;
    assert view.houseSections == Some(two);
    SuccessNotifiesOnce();
    assert view.effects == [DeleteRequested("h1", "s2")] + SuccessEffects();
    assert multiset(view.effects)[Refetch] == MaxRetries;
    OneToastPerInvocation("h1", "s2", Acked);
    assert Notifications(view.effects) == [SuccessToast];
  }
}
