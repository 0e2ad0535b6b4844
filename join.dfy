/** CheckErrors of helpers.go: the join of a fan-out. The buffered channel
    is the sequence of outcomes in the order they were received; its
    capacity is the length of the sequence. */
module ErrorJoin {
  import opened Wrappers

  const LineEnd := " \n"

  /** The texts of the non-nil outcomes, in the order received. */
  function Errors(outcomes: seq<Option<string>>): seq<string> {
    if outcomes == [] then []
    else
      var last := outcomes[|outcomes| - 1];
      Errors(outcomes[..|outcomes| - 1]) + (if last.Some? then [last.value] else [])
  }

  /** Each text followed by " \n". */
  function Lines(errs: seq<string>): string {
    if errs == [] then "" else Lines(errs[..|errs| - 1]) + errs[|errs| - 1] + LineEnd
  }

  /** The message CheckErrors reports. */
  function ErrorText(outcomes: seq<Option<string>>): string {
    Lines(Errors(outcomes))
  }

  predicate AnyError(outcomes: seq<Option<string>>) {
    exists i :: 0 <= i < |outcomes| && outcomes[i].Some?
  }

  /** The positions of the failed outcomes. */
  function Failed(outcomes: seq<Option<string>>): set<int> {
    set i | 0 <= i < |outcomes| && outcomes[i].Some?
  }

  /** Drains exactly `cap(channel)` outcomes, then joins the error texts.
      The capacity is at least one: with none, the Go loop never reaches
      `i == cap(channel)` and blocks on the channel for ever. */
  method CheckErrors(channel: seq<Option<string>>) returns (valueErr: string, checkErr: bool)
    requires |channel| >= 1
    ensures checkErr <==> AnyError(channel)
    ensures valueErr == ErrorText(channel)
    ensures valueErr == "" <==> !checkErr
  {
    var errorsSet: seq<string> := [];
    var i := 0;
    while true
      invariant 0 <= i < |channel|
      invariant errorsSet == Errors(channel[..i])
      decreases |channel| - i
    {
      var crudErr := channel[i];
      assert channel[..i + 1][..i] == channel[..i];
      i := i + 1;
      if crudErr.Some? {
        errorsSet := errorsSet + [crudErr.value];
      }
      assert errorsSet == Errors(channel[..i]);
      if i == |channel| {
        break;
      }
    }
    assert channel[..i] == channel;

    valueErr := "";
    checkErr := false;
    var j := 0;
    while j < |errorsSet|
      invariant 0 <= j <= |errorsSet|
      invariant valueErr == Lines(errorsSet[..j])
      invariant checkErr <==> j > 0
    {
      assert errorsSet[..j + 1][..j] == errorsSet[..j];
      valueErr := valueErr + errorsSet[j] + LineEnd;
      checkErr := true;
      j := j + 1;
    }
    assert errorsSet[..j] == errorsSet;
    ErrorsExistIffAnyError(channel);
    LinesEmptyIffNone(errorsSet);
  }

  lemma {:induction false} ErrorsExistIffAnyError(outcomes: seq<Option<string>>)
    ensures |Errors(outcomes)| > 0 <==> AnyError(outcomes)
  {
    if outcomes != [] {
      var init := outcomes[..|outcomes| - 1];
      ErrorsExistIffAnyError(init);
      if AnyError(init) {
        var i :| 0 <= i < |init| && init[i].Some?;
        assert outcomes[i].Some?;
      }
      if AnyError(outcomes) && !outcomes[|outcomes| - 1].Some? {
        var i :| 0 <= i < |outcomes| && outcomes[i].Some?;
        assert init[i].Some?;
      }
    }
  }

  lemma LinesEmptyIffNone(errs: seq<string>)
    ensures Lines(errs) == "" <==> errs == []
  {
    if errs != [] {
      assert |Lines(errs)| >= |LineEnd|;
    }
  }

  /** The message is empty exactly when no outcome failed. */
  lemma ErrorTextEmptyIffNoError(outcomes: seq<Option<string>>)
    ensures ErrorText(outcomes) == "" <==> !AnyError(outcomes)
  {
    ErrorsExistIffAnyError(outcomes);
    LinesEmptyIffNone(Errors(outcomes));
  }

  /** One text per failed outcome. */
  lemma {:induction false} ErrorCount(outcomes: seq<Option<string>>)
    ensures |Errors(outcomes)| == |Failed(outcomes)|
  {
    if outcomes == [] {
      assert Failed(outcomes) == {};
    } else {
      var n := |outcomes| - 1;
      var init := outcomes[..n];
      ErrorCount(init);
      if outcomes[n].Some? {
        assert Failed(outcomes) == Failed(init) + {n};
      } else {
        assert Failed(outcomes) == Failed(init);
      }
    }
  }

  function Newlines(s: string): nat {
    if s == [] then 0 else Newlines(s[..|s| - 1]) + (if s[|s| - 1] == '\n' then 1 else 0)
  }

  lemma {:induction false} NewlinesConcat(a: string, b: string)
    ensures Newlines(a + b) == Newlines(a) + Newlines(b)
  {
    if b == [] {
      assert a + b == a;
    } else {
      assert (a + b)[..|a + b| - 1] == a + b[..|b| - 1];
      NewlinesConcat(a, b[..|b| - 1]);
    }
  }

  /** With texts free of line breaks, the message has exactly one line per
      failed outcome. */
  lemma {:induction false} ErrorLines(outcomes: seq<Option<string>>)
    requires forall i :: 0 <= i < |outcomes| && outcomes[i].Some? ==> '\n' !in outcomes[i].value
    ensures Newlines(ErrorText(outcomes)) == |Failed(outcomes)|
  {
    ErrorCount(outcomes);
    LinesOfTexts(outcomes);
  }

  lemma {:induction false} LinesOfTexts(outcomes: seq<Option<string>>)
    requires forall i :: 0 <= i < |outcomes| && outcomes[i].Some? ==> '\n' !in outcomes[i].value
    ensures Newlines(Lines(Errors(outcomes))) == |Errors(outcomes)|
  {
    if outcomes != [] {
      var n := |outcomes| - 1;
      var init := outcomes[..n];
      LinesOfTexts(init);
      if outcomes[n].Some? {
        var errs := Errors(outcomes);
        var e := outcomes[n].value;
        assert errs == Errors(init) + [e];
        assert errs[..|errs| - 1] == Errors(init);
        NewlinesConcat(Lines(Errors(init)) + e, LineEnd);
        NewlinesConcat(Lines(Errors(init)), e);
        NewlinesFree(e);
        assert Newlines(LineEnd) == 1;
      } else {
        assert Errors(outcomes) == Errors(init);
      }
    }
  }

  lemma {:induction false} NewlinesFree(s: string)
    requires '\n' !in s
    ensures Newlines(s) == 0
  {
    if s != [] {
      assert s[|s| - 1] in s;
      NewlinesFree(s[..|s| - 1]);
    }
  }
}
