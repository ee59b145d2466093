/** The page <-> worker notification handshake, end to end: the page posts a flattened
    `SHOW_NOTIFICATION` command with a transferred port and waits for `{ success }`; the
    worker's handler decides what it shows and whether it answers; the page falls back to a
    direct notification when no success arrives. Only the case that reaches the worker is
    modelled here: notifications supported, permission granted, an active registration. */
module Protocol {
  import opened Common
  import opened JsValue
  import opened ServiceWorker
  import opened Notifications

  /** How the page's wait ends, given what the worker did: the first answer on the port, or
      the 5 s timer when the worker never answers. */
  function AckFrom(workerEffects: seq<Effect>): (a: Ack)
    ensures a.Replied? <==> exists e :: e in workerEffects && e.PortReply?
    ensures a.Replied? ==> PortReply(a.data) in workerEffects
  {
    if workerEffects == [] then TimedOut
    else if workerEffects[0].PortReply? then Replied(workerEffects[0].data)
    else AckFrom(workerEffects[1..])
  }

  /** Everything one `sendNotification` call causes on both sides. */
  datatype Exchange = Exchange(command: Value, worker: seq<Effect>, page: seq<PageEffect>)

  predicate IsWorkerShow(e: Effect) { e.ShowNotification? }

  predicate IsDirectShown(e: PageEffect) { e.DirectShown? }

  /** Notifications the user sees: those the worker shows plus those the page constructs. */
  function Shown(x: Exchange): nat {
    CountWhere(x.worker, IsWorkerShow) + CountWhere(x.page, IsDirectShown)
  }

  /** The handshake with the worker's handler as written. */
  function ExchangeAsWritten(title: string, options: Options, now: int, directThrows: bool): Exchange {
    var merged := MergeOptions(options, now);
    var command := Envelope(title, merged);
    var worker := MessageEffectsAsWritten(command);
    Exchange(command, worker,
      Dispatch(true, Granted, Some(Registration(true)), title, merged, AckFrom(worker), directThrows))
  }

  /** The handshake with the corrected handler (`Worker.MessageCorrected`). */
  function ExchangeCorrected(title: string, options: Options, now: int, directThrows: bool): Exchange {
    var merged := MergeOptions(options, now);
    var command := Envelope(title, merged);
    var worker := MessageEffects(command);
    Exchange(command, worker,
      Dispatch(true, Granted, Some(Registration(true)), title, merged, AckFrom(worker), directThrows))
  }

  /** The page's command is recognised by the worker whenever the caller's options do not
      override `type`, and its remaining properties are exactly the merged options when they
      do not override `title` either. */
  lemma CommandShape(title: string, options: Options, now: int)
    requires "type" !in options && "title" !in options
    ensures var merged := MergeOptions(options, now);
      && IsShowCommand(Envelope(title, merged))
      && Field(Envelope(title, merged), "title") == Str(title)
      && CommandOptions(Envelope(title, merged)) == merged
  {
    var merged := MergeOptions(options, now);
    var command := Envelope(title, merged);
    assert "type" !in merged && "title" !in merged;
    assert command.fields["type"] == Str(ServiceWorker.ShowNotificationType);
    assert command.fields["title"] == Str(title);
    assert CommandOptions(command) == merged by {
      forall k | k in merged
        ensures k in CommandOptions(command) && CommandOptions(command)[k] == merged[k]
      {
      }
    }
  }

  /** As written, a plain `sendNotification(title)` with an active worker produces TWO
      notifications: the worker's, with the title and no options at all (the page never
      sends an `options` property), and, after the 5 s wait for an answer that never comes,
      the page's own with the merged options. */
  lemma AsWrittenShowsTwice(title: string, now: int)
    ensures var x := ExchangeAsWritten(title, map[], now, false);
      && x.worker == [ShowNotification(Str(title), Undefined)]
      && x.page == [Posted(x.command), DirectShown(title, MergeOptions(map[], now))]
      && Shown(x) == 2
  {
    var merged := MergeOptions(map[], now);
    var x := ExchangeAsWritten(title, map[], now, false);
    CommandShape(title, map[], now);
    assert "options" !in merged;
    assert x.worker == [ShowNotification(Str(title), Undefined)];
    assert AckFrom(x.worker) == TimedOut by {
      assert AckFrom(x.worker[1..]) == TimedOut;
    }
    assert x.page == PostThen(x.command, [DirectShown(title, merged)]);
    CountCons(ShowNotification(Str(title), Undefined), [], IsWorkerShow);
    CountCons(Posted(x.command), [DirectShown(title, merged)], IsDirectShown);
    CountCons(DirectShown(title, merged), [], IsDirectShown);
  }

  /** The corrected handler's answer to the page's command: one notification with the merged
      options, then the success reply. */
  lemma CorrectedWorkerEffects(title: string, options: Options, now: int)
    requires "type" !in options && "title" !in options
    ensures MessageEffects(Envelope(title, MergeOptions(options, now))) ==
      [ShowNotification(Str(title), Obj(MergeOptions(options, now))), PortReply(SuccessReply)]
  {
    CommandShape(title, options, now);
  }

  /** With the corrected handler, whenever the caller does not override `type` or `title`,
      exactly one notification is shown, by the worker, carrying the title and the merged
      options, and the page's fallback never fires. */
  lemma {:induction false} CorrectedShowsOnce(title: string, options: Options, now: int, directThrows: bool)
    requires "type" !in options && "title" !in options
    ensures var x := ExchangeCorrected(title, options, now, directThrows);
      && x.worker == [ShowNotification(Str(title), Obj(MergeOptions(options, now))), PortReply(SuccessReply)]
      && x.page == [Posted(x.command)]
      && Shown(x) == 1
  {
    var merged := MergeOptions(options, now);
    var x := ExchangeCorrected(title, options, now, directThrows);
    CorrectedWorkerEffects(title, options, now);
    assert AckFrom(x.worker) == Replied(SuccessReply) by {
      assert x.worker[1..] == [PortReply(SuccessReply)];
    }
    assert AckSuccess(Replied(SuccessReply));
    assert x.page == PostThen(x.command, []);
    CountCons(ShowNotification(Str(title), Obj(merged)), [PortReply(SuccessReply)], IsWorkerShow);
    CountCons(PortReply(SuccessReply), [], IsWorkerShow);
    CountCons(Posted(x.command), [], IsDirectShown);
  }
}
