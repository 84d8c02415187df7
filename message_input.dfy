/**
 * The chat composer `MessageInput`: the draft, the `isTyping` flag and the
 * single typing timeout kept in `typingTimeoutRef`.  Timeouts are numbered
 * handles; `timers` maps the ones armed and neither fired nor cleared to their delay.
 */
module MessageInput {
  import opened Options
  import opened Text

  const TypingTimeout: int := 1000

  datatype Composer = Composer(
    message: string,
    isTyping: bool,
    timeoutRef: Option<nat>,   // typingTimeoutRef.current
    timers: map<nat, int>,     // typing timeouts still pending: handle to delay
    nextHandle: nat)           // the handle the next setTimeout returns

  function InitialComposer(): Composer {
    Composer("", false, None, map[], 1)
  }

  /** At most one typing timeout is pending, and it is the one the ref names. */
  ghost predicate OneTimeout(c: Composer) {
    && (forall h :: h in c.timers ==> c.timeoutRef == Some(h))
    && (c.timeoutRef.Some? ==> c.timeoutRef.value < c.nextHandle)
  }

  /** `clearTimeout(typingTimeoutRef.current)`. */
  function ClearRef(c: Composer): map<nat, int> {
    if c.timeoutRef.Some? then c.timers - {c.timeoutRef.value} else c.timers
  }

  /** The submit guard: a blank draft or a disabled input sends nothing. */
  predicate CanSubmit(c: Composer, disabled: bool) {
    !AllSpace(c.message) && !disabled
  }

  /** What `handleSubmit` passes to `onSendMessage`, if it calls it at all. */
  function Submitted(c: Composer, disabled: bool): (r: Option<string>)
    ensures r.Some? <==> Trim(c.message) != "" && !disabled
    ensures r.Some? ==> r.value == Trim(c.message) && r.value != ""
  {
    if CanSubmit(c, disabled) then Some(Trim(c.message)) else None
  }

  /** `handleSubmit`: clears the draft and the flag and cancels the pending timeout. */
  function AfterSubmit(c: Composer, disabled: bool): Composer {
    if CanSubmit(c, disabled) then c.(message := "", isTyping := false, timers := ClearRef(c))
    else c
  }

  /** `handleInputChange(value)`: replace the draft, maybe raise the flag, re-arm the timeout. */
  function AfterInputChange(c: Composer, value: string): Composer {
    c.(message := value,
       isTyping := if !c.isTyping && |value| > 0 then true else c.isTyping,
       timers := ClearRef(c)[c.nextHandle := TypingTimeout],
       timeoutRef := Some(c.nextHandle),
       nextHandle := c.nextHandle + 1)
  }

  /** The typing timeout `h` fires. */
  function AfterTimeout(c: Composer, h: nat): Composer
    requires h in c.timers
  {
    c.(timers := c.timers - {h}, isTyping := false)
  }

  /** The unmount cleanup. */
  function AfterUnmount(c: Composer): Composer {
    c.(timers := ClearRef(c))
  }

  /**
   * Every handler keeps at most one typing timeout pending: an input change
   * cancels the previous one before arming the next, and submit and unmount
   * leave none.
   */
  lemma HandlersKeepOneTimeout(c: Composer, disabled: bool, value: string, h: nat)
    requires OneTimeout(c)
    ensures OneTimeout(InitialComposer())
    ensures OneTimeout(AfterSubmit(c, disabled))
    ensures OneTimeout(AfterInputChange(c, value))
    ensures AfterInputChange(c, value).timers == map[AfterInputChange(c, value).timeoutRef.value := TypingTimeout]
    ensures h in c.timers ==> OneTimeout(AfterTimeout(c, h)) && AfterTimeout(c, h).timers == map[]
    ensures OneTimeout(AfterUnmount(c)) && AfterUnmount(c).timers == map[]
    ensures CanSubmit(c, disabled) ==> AfterSubmit(c, disabled).timers == map[]
  {
  }

  /**
   * Submit sends the trimmed draft exactly when it is not blank and the input
   * is enabled; then draft and flag are cleared; otherwise nothing changes.
   */
  lemma SubmitOutcome(c: Composer, disabled: bool)
    ensures Submitted(c, disabled).None? ==> AfterSubmit(c, disabled) == c
    ensures Submitted(c, disabled).Some? ==>
      && AfterSubmit(c, disabled).message == ""
      && !AfterSubmit(c, disabled).isTyping
      && Submitted(c, disabled).value == Trim(c.message)
  {
  }

  /**
   * An input change stores the new value; the flag is raised by a non-empty
   * value and is never lowered by an input change, only by the timeout or a submit.
   */
  lemma InputChangeTyping(c: Composer, value: string)
    ensures AfterInputChange(c, value).message == value
    ensures AfterInputChange(c, value).isTyping == (c.isTyping || value != "")
    ensures c.isTyping ==> AfterInputChange(c, value).isTyping
  {
  }

  /** The component instance: its state cells, its timeout ref, and the `disabled` prop. */
  class Input {
    const disabled: bool
    var message: string
    var isTyping: bool
    var timeoutRef: Option<nat>
    var timers: map<nat, int>
    var nextHandle: nat

    function State(): Composer
      reads this
    {
      Composer(message, isTyping, timeoutRef, timers, nextHandle)
    }

    ghost predicate Valid()
      reads this
    {
      OneTimeout(State())
    }

    constructor (disabled: bool)
      ensures this.disabled == disabled
      ensures State() == InitialComposer() && Valid()
    {
      this.disabled := disabled;
      message, isTyping := "", false;
      timeoutRef, timers, nextHandle := None, map[], 1;
    }

    method ClearTypingTimeout()
      modifies this
      ensures State() == old(State()).(timers := ClearRef(old(State())))
    {
      if timeoutRef.Some? {
        timers := timers - {timeoutRef.value};
      }
    }

    /** `handleSubmit`; `sent` is the argument of the `onSendMessage` call, if one was made. */
    method HandleSubmit() returns (sent: Option<string>)
      requires Valid()
      modifies this
      ensures Valid()
      ensures sent == Submitted(old(State()), disabled)
      ensures State() == AfterSubmit(old(State()), disabled)
    {
      if AllSpace(message) || disabled {
        return None;
      }
      sent := Some(Trim(message));
      message := "";
      isTyping := false;
      ClearTypingTimeout();
    }

    method HandleInputChange(value: string)
      requires Valid()
      modifies this
      ensures Valid()
      ensures State() == AfterInputChange(old(State()), value)
    {
      message := value;
      if !isTyping && |value| > 0 {
        isTyping := true;
      }
      ClearTypingTimeout();
      timers := timers[nextHandle := TypingTimeout];
      timeoutRef := Some(nextHandle);
      nextHandle := nextHandle + 1;
    }

    /** The typing timeout `h` fires. */
    method OnTimeout(h: nat)
      requires Valid() && h in timers
      modifies this
      ensures Valid()
      ensures State() == AfterTimeout(old(State()), h)
    {
      timers := timers - {h};
      isTyping := false;
    }

    /** The unmount cleanup. */
    method Unmount()
      requires Valid()
      modifies this
      ensures Valid() && timers == map[]
      ensures State() == AfterUnmount(old(State()))
    {
      ClearTypingTimeout();
    }
  }
}
