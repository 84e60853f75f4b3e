/**
 * The event and action registry of the chat bot and its message helpers
 * (tg_bot/tg_API/utils/commands.py).
 *
 * Handlers are function values. A call that raises is an `Outcome` of
 * `Raised`, which the registry turns into its fallback value, as the
 * source's `except BaseException` does.
 */
module Commands {
  import opened Wrappers
  import opened Strings
  import opened PyValues

  /** What calling a handler does: return a value or raise. */
  datatype Outcome = Returned(value: PyValue) | Raised

  type Kwargs = map<string, PyValue>

  /** An action handler takes keyword arguments only. */
  datatype Action = Action(call: Kwargs -> Outcome)

  /** The optional arguments an event handler receives: present iff it declares them. */
  datatype CallArgs = CallArgs(dataKey: Option<seq<string>>, state: Option<PyValue>, history: Option<PyValue>)

  /**
   * An event handler: the parameter names it declares (`__code__.co_varnames`)
   * and its body, which receives the event object positionally and the
   * optional arguments by keyword.
   */
  datatype EventHandler = EventHandler(params: set<string>, run: (Update, CallArgs) -> Outcome)

  /** default_action: whatever the arguments, an empty dict. */
  function DefaultAction(kwargs: Kwargs): (o: Outcome)
    ensures o == Returned(PDict(map[]))
  {
    Returned(PDict(map[]))
  }

  /** empty_function: reports that no handler is assigned and answers False. */
  const EmptyFunction: EventHandler :=
    EventHandler({"callback", "data_key", "state", "history"}, (callback: Update, args: CallArgs) => Returned(PBool(false)))

  /** The value a call yields: the returned value, or `onRaise` when it raised. */
  function ValueOf(o: Outcome, onRaise: PyValue): PyValue {
    if o.Returned? then o.value else onRaise
  }

  /** The handler do_action runs for a name: the registered one, else "default". */
  function ActionFor(actions: map<string, Action>, name: string): Action
    requires "default" in actions
  {
    if name in actions then actions[name] else actions["default"]
  }

  /** The keyword arguments do_event passes: only those the handler declares. */
  function ArgsFor(params: set<string>, dataKey: seq<string>, state: PyValue, history: PyValue): (a: CallArgs)
    ensures a.dataKey.Some? <==> "data_key" in params
    ensures a.state.Some? <==> "state" in params
    ensures a.history.Some? <==> "history" in params
    ensures a.dataKey.Some? ==> a.dataKey.value == dataKey
    ensures a.state.Some? ==> a.state.value == state
    ensures a.history.Some? ==> a.history.value == history
  {
    CallArgs(
      if "data_key" in params then Some(dataKey) else None,
      if "state" in params then Some(state) else None,
      if "history" in params then Some(history) else None)
  }

  /** OnAnythingDoSomething: the two handler dictionaries. */
  class Registry {
    var events: map<string, EventHandler>
    var actions: map<string, Action>

    /** The fallbacks are always registered: entries are overwritten, never removed. */
    ghost predicate Valid()
      reads this
    {
      "default" in events && "default" in actions
    }

    constructor ()
      ensures Valid()
      ensures events == map["default" := EmptyFunction]
      ensures actions == map["default" := Action(DefaultAction)]
    {
      events := map["default" := EmptyFunction];
      actions := map["default" := Action(DefaultAction)];
    }

    /** register_action: adds or replaces one entry. */
    method RegisterAction(name: string, f: Action)
      requires Valid()
      modifies this
      ensures Valid()
      ensures actions == old(actions)[name := f] && events == old(events)
    {
      actions := actions[name := f];
    }

    /** register_event: adds or replaces one entry. */
    method RegisterEvent(name: string, f: EventHandler)
      requires Valid()
      modifies this
      ensures Valid()
      ensures events == old(events)[name := f] && actions == old(actions)
    {
      events := events[name := f];
    }

    /** do_action: runs the registered or the default action; a raise yields None. */
    method DoAction(name: string, kwargs: Kwargs) returns (r: PyValue)
      requires Valid()
      ensures r == ValueOf(ActionFor(actions, name).call(kwargs), PNone)
      ensures name !in actions && actions["default"] == Action(DefaultAction) ==> r == PDict(map[])
    {
      r := PNone;
      if name in actions {
        var o := actions[name].call(kwargs);
        if o.Returned? {
          r := o.value;
        }
      } else {
        var o := actions["default"].call(kwargs);
        if o.Returned? {
          r := o.value;
        }
      }
    }

    /**
     * do_event: a registered handler gets only the arguments it declares; an
     * unknown name goes to "default" with all of them; a raise yields False.
     */
    method DoEvent(name: string, callback: Update, dataKey: seq<string>, state: PyValue, history: PyValue) returns (r: PyValue)
      requires Valid()
      ensures name in events ==>
        r == ValueOf(events[name].run(callback, ArgsFor(events[name].params, dataKey, state, history)), PBool(false))
      ensures name !in events ==>
        r == ValueOf(events["default"].run(callback, CallArgs(Some(dataKey), Some(state), Some(history))), PBool(false))
    {
      r := PBool(false);
      if name in events {
        var func := events[name];
        var o := func.run(callback, ArgsFor(func.params, dataKey, state, history));
        if o.Returned? {
          r := o.value;
        }
      } else {
        var o := events["default"].run(callback, CallArgs(Some(dataKey), Some(state), Some(history)));
        if o.Returned? {
          r := o.value;
        }
      }
    }
  }

  /**
   * Registering a name other than "default" changes nothing for other names;
   * registering "default" changes the fallback of every unregistered name.
   */
  lemma RegisterAffects(actions: map<string, Action>, name: string, f: Action, other: string)
    requires "default" in actions && other != name
    ensures name != "default" ==> ActionFor(actions[name := f], other) == ActionFor(actions, other)
    ensures name == "default" && other !in actions ==> ActionFor(actions[name := f], other) == f
  {
  }

  // ---------------------------------------------------------------------------
  // get_message

  datatype Message = Message(text: string, contentType: string)

  /** The object an event carries: a button press, a message, or a bare user. */
  datatype Update =
    | CallbackUpdate(message: Option<Message>, data: string)
    | MessageUpdate(msg: Message)
    | UserUpdate(userId: int)

  /** get_message: the message of a button press, the message itself, or None. */
  function GetMessage(u: Update): (m: Option<Message>)
    ensures u.CallbackUpdate? ==> m == u.message
    ensures u.MessageUpdate? ==> m == Some(u.msg)
    ensures u.UserUpdate? ==> m.None?
  {
    match u
    case CallbackUpdate(message, _) => message
    case MessageUpdate(msg) => Some(msg)
    case UserUpdate(_) => None
  }

  // ---------------------------------------------------------------------------
  // safe_send_message

  /** The message length limit of the chat service. */
  const MaxMessageLength := 4096

  const DoneText := "Действие выполнено. Жду дальнейших действий."

  /** One `message.answer` call: the text and whether the keyboard was attached. */
  datatype Sent = Sent(text: string, withMarkup: bool)

  /**
   * The answers the paragraph loop sends, with `out` the chunk being built and
   * `rest` the paragraphs not yet looked at. A chunk is flushed when its length
   * plus the next paragraph's exceeds the limit; the last paragraph is always
   * appended to the final chunk, which alone carries the keyboard.
   */
  function ChunksFrom(out: string, rest: seq<string>): (sent: seq<Sent>)
    ensures |sent| >= 1
    ensures sent[|sent| - 1].withMarkup
    ensures forall i :: 0 <= i < |sent| - 1 ==> !sent[i].withMarkup
    decreases |rest|
  {
    if rest == [] then [Sent(out, true)]
    else if |rest| == 1 then [Sent(out + "\n" + rest[0], true)]
    else if |out| + |rest[0]| > MaxMessageLength then [Sent(out, false)] + ChunksFrom("\n" + rest[0], rest[1..])
    else ChunksFrom(out + "\n" + rest[0], rest[1..])
  }

  /** What safe_send_message sends for a text. */
  function SendPlan(text: string): seq<Sent> {
    if text == "" then [Sent(DoneText, true)]
    else
      var p := Split(text, '\n');
      ChunksFrom(p[0], p[1..])
  }

  /** safe_send_message: the done text for an empty text, else the paragraphs of the text. */
  method SafeSendMessage(text: string) returns (sent: seq<Sent>)
    ensures sent == SendPlan(text)
  {
    if text == "" {
      return [Sent(DoneText, true)];
    }
    var paragraphs := Split(text, '\n');
    sent := SendParagraphs(paragraphs);
  }

  /** The paragraph loop of safe_send_message, with its `while ... else`. */
  method SendParagraphs(paragraphs: seq<string>) returns (sent: seq<Sent>)
    requires |paragraphs| >= 1
    ensures sent == ChunksFrom(paragraphs[0], paragraphs[1..])
  {
    var counter := 0;
    var outText := paragraphs[0];
    var lastParagraph := |paragraphs| - 1;
    var broke := false;
    sent := [];
    while counter < lastParagraph
      invariant 0 <= counter <= lastParagraph
      invariant sent + ChunksFrom(outText, paragraphs[counter + 1..]) == ChunksFrom(paragraphs[0], paragraphs[1..])
      decreases lastParagraph - counter
    {
      counter := counter + 1;
      ghost var rest := paragraphs[counter..];
      assert rest[0] == paragraphs[counter] && rest[1..] == paragraphs[counter + 1..];
      if |outText| + |paragraphs[counter]| > MaxMessageLength || counter >= lastParagraph {
        if counter >= lastParagraph {
          LastStep(sent, outText, rest);
          outText := outText + "\n" + paragraphs[counter];
          sent := sent + [Sent(outText, true)];
          broke := true;
          break;
        } else {
          FlushStep(sent, outText, rest);
          sent := sent + [Sent(outText, false)];
        }
        outText := "";
      } else {
        AppendStep(outText, rest);
      }
      outText := outText + "\n" + paragraphs[counter];
    }
    if !broke {
      sent := sent + [Sent(outText, true)];
    }
  }

  lemma LastStep(sent: seq<Sent>, out: string, rest: seq<string>)
    requires |rest| == 1
    ensures sent + ChunksFrom(out, rest) == sent + [Sent(out + "\n" + rest[0], true)]
  {
  }

  lemma AppendStep(out: string, rest: seq<string>)
    requires |rest| >= 2 && |out| + |rest[0]| <= MaxMessageLength
    ensures ChunksFrom(out, rest) == ChunksFrom(out + "\n" + rest[0], rest[1..])
  {
  }

  lemma FlushStep(sent: seq<Sent>, out: string, rest: seq<string>)
    requires |rest| >= 2 && |out| + |rest[0]| > MaxMessageLength
    ensures sent + ChunksFrom(out, rest) == (sent + [Sent(out, false)]) + ChunksFrom("" + "\n" + rest[0], rest[1..])
  {
    assert "" + "\n" + rest[0] == "\n" + rest[0];
  }

  /** The texts of the answers, end to end. */
  function Texts(sent: seq<Sent>): string
    decreases |sent|
  {
    if sent == [] then "" else sent[0].text + Texts(sent[1..])
  }

  /** The paragraphs each preceded by a newline. */
  function NewlineEach(rest: seq<string>): string
    decreases |rest|
  {
    if rest == [] then "" else "\n" + rest[0] + NewlineEach(rest[1..])
  }

  lemma {:induction false} TextsAppend(a: seq<Sent>, b: seq<Sent>)
    ensures Texts(a + b) == Texts(a) + Texts(b)
    decreases |a|
  {
    if a == [] {
      assert a + b == b;
    } else {
      assert (a + b)[0] == a[0];
      assert (a + b)[1..] == a[1..] + b;
      TextsAppend(a[1..], b);
    }
  }

  /** No text is lost or reordered: the answers spell out the chunk and the remaining paragraphs. */
  lemma {:induction false} ChunksSpellText(out: string, rest: seq<string>)
    ensures Texts(ChunksFrom(out, rest)) == out + NewlineEach(rest)
    decreases |rest|
  {
    if rest == [] {
    } else if |rest| == 1 {
      assert rest[1..] == [];
    } else if |out| + |rest[0]| > MaxMessageLength {
      ChunksSpellText("\n" + rest[0], rest[1..]);
      TextsAppend([Sent(out, false)], ChunksFrom("\n" + rest[0], rest[1..]));
    } else {
      ChunksSpellText(out + "\n" + rest[0], rest[1..]);
    }
  }

  lemma {:induction false} JoinByNewline(parts: seq<string>)
    requires |parts| >= 1
    ensures Join(parts, "\n") == parts[0] + NewlineEach(parts[1..])
    decreases |parts|
  {
    if |parts| > 1 {
      JoinByNewline(parts[1..]);
      assert parts[1..][1..] == parts[2..];
    }
  }

  /** The answers of safe_send_message put together are exactly the text sent. */
  lemma SendPlanSpellsText(text: string)
    requires text != ""
    ensures Texts(SendPlan(text)) == text
  {
    var p := Split(text, '\n');
    ChunksSpellText(p[0], p[1..]);
    JoinByNewline(p);
    JoinSplit(text, '\n');
  }

  /**
   * The flush test leaves out the newline it then adds: paragraphs of 4095, 1,
   * 4096 and any fourth make a first answer of 4097 characters, over the limit.
   * The last paragraph is appended without any test: with only the first three
   * paragraphs, one answer of 8194 characters is sent.
   */
  lemma ChunkOverLimit(a: string, b: string, c: string, d: string)
    requires |a| == 4095 && |b| == 1 && |c| == 4096
    ensures ChunksFrom(a, [b, c, d])[0] == Sent(a + "\n" + b, false)
    ensures |ChunksFrom(a, [b, c, d])[0].text| == MaxMessageLength + 1
    ensures ChunksFrom(a, [b, c]) == [Sent(a + "\n" + b + "\n" + c, true)]
    ensures |ChunksFrom(a, [b, c])[0].text| == 2 * MaxMessageLength + 2
  {
  }

  /**
   * The evidently intended chunking: the newline counts toward the limit and
   * the last paragraph is tested like the others.
   */
  function BoundedChunksFrom(out: string, rest: seq<string>): (sent: seq<Sent>)
    ensures |sent| >= 1
    ensures sent[|sent| - 1].withMarkup
    ensures forall i :: 0 <= i < |sent| - 1 ==> !sent[i].withMarkup
    decreases |rest|
  {
    if rest == [] then [Sent(out, true)]
    else if |out| + 1 + |rest[0]| > MaxMessageLength then
      [Sent(out, false)] + BoundedChunksFrom("\n" + rest[0], rest[1..])
    else
      BoundedChunksFrom(out + "\n" + rest[0], rest[1..])
  }

  /** A chunk that continues the text after a flush opens with the newline put before its first paragraph. */
  predicate OpensWithNewline(t: string) {
    |t| >= 1 && t[0] == '\n'
  }

  /** Once the pending chunk opens with a newline, every answer does. */
  lemma {:induction false} ChunksKeepNewline(out: string, rest: seq<string>)
    requires OpensWithNewline(out)
    ensures forall i :: 0 <= i < |ChunksFrom(out, rest)| ==> OpensWithNewline(ChunksFrom(out, rest)[i].text)
    decreases |rest|
  {
    if |rest| >= 2 {
      var next := out + "\n" + rest[0];
      if |out| + |rest[0]| > MaxMessageLength {
        ChunksKeepNewline("\n" + rest[0], rest[1..]);
      } else {
        assert next[0] == out[0];
        ChunksKeepNewline(next, rest[1..]);
      }
    } else if |rest| == 1 {
      assert (out + "\n" + rest[0])[0] == out[0];
    }
  }

  /** Every answer after the first opens with '\n': the chunk is reset to "" and the next paragraph added after a newline. */
  lemma {:induction false} LaterChunksStartWithNewline(out: string, rest: seq<string>)
    ensures forall i :: 1 <= i < |ChunksFrom(out, rest)| ==> OpensWithNewline(ChunksFrom(out, rest)[i].text)
    decreases |rest|
  {
    if |rest| >= 2 {
      if |out| + |rest[0]| > MaxMessageLength {
        var tail := ChunksFrom("\n" + rest[0], rest[1..]);
        ChunksKeepNewline("\n" + rest[0], rest[1..]);
        assert forall i :: 1 <= i < |ChunksFrom(out, rest)| ==> ChunksFrom(out, rest)[i] == tail[i - 1];
      } else {
        LaterChunksStartWithNewline(out + "\n" + rest[0], rest[1..]);
      }
    }
  }

  /** The corrected chunking keeps a leading newline in every answer. */
  lemma {:induction false} BoundedChunksKeepNewline(out: string, rest: seq<string>)
    requires OpensWithNewline(out)
    ensures forall i :: 0 <= i < |BoundedChunksFrom(out, rest)| ==> OpensWithNewline(BoundedChunksFrom(out, rest)[i].text)
    decreases |rest|
  {
    if rest != [] {
      var next := out + "\n" + rest[0];
      if |out| + 1 + |rest[0]| > MaxMessageLength {
        BoundedChunksKeepNewline("\n" + rest[0], rest[1..]);
      } else {
        assert next[0] == out[0];
        BoundedChunksKeepNewline(next, rest[1..]);
      }
    }
  }

  /** In the corrected chunking too, every answer after the first opens with '\n'. */
  lemma {:induction false} BoundedLaterChunksStartWithNewline(out: string, rest: seq<string>)
    ensures forall i :: 1 <= i < |BoundedChunksFrom(out, rest)| ==> OpensWithNewline(BoundedChunksFrom(out, rest)[i].text)
    decreases |rest|
  {
    if rest != [] {
      if |out| + 1 + |rest[0]| > MaxMessageLength {
        var tail := BoundedChunksFrom("\n" + rest[0], rest[1..]);
        BoundedChunksKeepNewline("\n" + rest[0], rest[1..]);
        assert forall i :: 1 <= i < |BoundedChunksFrom(out, rest)| ==> BoundedChunksFrom(out, rest)[i] == tail[i - 1];
      } else {
        BoundedLaterChunksStartWithNewline(out + "\n" + rest[0], rest[1..]);
      }
    }
  }

  /** The corrected chunking loses and reorders nothing either. */
  lemma {:induction false} BoundedChunksSpellText(out: string, rest: seq<string>)
    ensures Texts(BoundedChunksFrom(out, rest)) == out + NewlineEach(rest)
    decreases |rest|
  {
    if rest == [] {
    } else if |out| + 1 + |rest[0]| > MaxMessageLength {
      BoundedChunksSpellText("\n" + rest[0], rest[1..]);
      TextsAppend([Sent(out, false)], BoundedChunksFrom("\n" + rest[0], rest[1..]));
    } else {
      BoundedChunksSpellText(out + "\n" + rest[0], rest[1..]);
    }
  }

  /** With every paragraph shorter than the limit, no answer of the corrected chunking exceeds it. */
  lemma {:induction false} BoundedChunksWithinLimit(out: string, rest: seq<string>)
    requires |out| <= MaxMessageLength
    requires forall j :: 0 <= j < |rest| ==> |rest[j]| < MaxMessageLength
    ensures forall i :: 0 <= i < |BoundedChunksFrom(out, rest)| ==> |BoundedChunksFrom(out, rest)[i].text| <= MaxMessageLength
    decreases |rest|
  {
    if rest != [] {
      assert |rest[0]| < MaxMessageLength;
      assert forall j :: 0 <= j < |rest[1..]| ==> |rest[1..][j]| < MaxMessageLength by {
        forall j | 0 <= j < |rest[1..]| ensures |rest[1..][j]| < MaxMessageLength {
          assert rest[1..][j] == rest[j + 1];
        }
      }
      if |out| + 1 + |rest[0]| > MaxMessageLength {
        BoundedChunksWithinLimit("\n" + rest[0], rest[1..]);
      } else {
        BoundedChunksWithinLimit(out + "\n" + rest[0], rest[1..]);
      }
    }
  }
}
