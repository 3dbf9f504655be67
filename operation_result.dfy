/**
 * OperationResult: the outcome of an import / export / load operation, with
 * item statistics and a list of severity-tagged messages, and the one-line
 * summary shown to the user.
 */
module OperationResults {
  import opened JuceText

  datatype MessageSeverity = Info | Warning | Error

  datatype OperationMessage = OperationMessage(severity: MessageSeverity, message: string, context: string)

  /** std::count_if over the severity. */
  function CountOf(msgs: seq<OperationMessage>, sev: MessageSeverity): (n: nat)
    ensures n <= |msgs|
  {
    if msgs == [] then 0
    else CountOf(msgs[..|msgs| - 1], sev) + (if msgs[|msgs| - 1].severity == sev then 1 else 0)
  }

  /** The messages of one severity, in their original order. */
  function Filter(msgs: seq<OperationMessage>, sev: MessageSeverity): (r: seq<OperationMessage>)
    ensures forall i :: 0 <= i < |r| ==> r[i].severity == sev
  {
    if msgs == [] then []
    else Filter(msgs[..|msgs| - 1], sev) + (if msgs[|msgs| - 1].severity == sev then [msgs[|msgs| - 1]] else [])
  }

  /** Every message has exactly one severity, so the three counts add up to the total. */
  lemma {:induction false} CountsSum(msgs: seq<OperationMessage>)
    ensures CountOf(msgs, Info) + CountOf(msgs, Warning) + CountOf(msgs, Error) == |msgs|
  {
    if msgs != [] {
      CountsSum(msgs[..|msgs| - 1]);
    }
  }

  /** A filter holds as many messages as the matching count. */
  lemma {:induction false} FilterLength(msgs: seq<OperationMessage>, sev: MessageSeverity)
    ensures |Filter(msgs, sev)| == CountOf(msgs, sev)
  {
    if msgs != [] {
      FilterLength(msgs[..|msgs| - 1], sev);
    }
  }

  /** Filtering distributes over concatenation: the original order is kept. */
  lemma {:induction false} FilterAppend(a: seq<OperationMessage>, b: seq<OperationMessage>, sev: MessageSeverity)
    ensures Filter(a + b, sev) == Filter(a, sev) + Filter(b, sev)
    decreases |b|
  {
    if b != [] {
      assert (a + b)[..|a + b| - 1] == a + b[..|b| - 1];
      FilterAppend(a, b[..|b| - 1], sev);
    } else {
      assert a + b == a;
    }
  }

  /** A message of the severity is kept, any other is dropped. */
  lemma {:induction false} FilterMembership(msgs: seq<OperationMessage>, sev: MessageSeverity, m: OperationMessage)
    ensures m in Filter(msgs, sev) <==> m in msgs && m.severity == sev
  {
    if msgs != [] {
      FilterMembership(msgs[..|msgs| - 1], sev, m);
      assert msgs == msgs[..|msgs| - 1] + [msgs[|msgs| - 1]];
    }
  }

  /** The "3 errors" / "1 warning" phrase: the count, the noun, and "s" for more than one. */
  function CountPhrase(n: int, noun: string): string {
    IntToString(n) + " " + noun + (if n > 1 then "s" else "")
  }

  /** The issues suffix built from the two phrases. */
  function IssuesFrom(errors: int, warnings: int, errorPhrase: string, warningPhrase: string): string {
    if warnings <= 0 && errors <= 0 then []
    else
      " - "
      + (if errors > 0 then errorPhrase else [])
      + (if warnings > 0 && errors > 0 then ", " else [])
      + (if warnings > 0 then warningPhrase else [])
  }

  /** The part of the summary after the outcome. */
  function IssuesText(errors: int, warnings: int): string {
    IssuesFrom(errors, warnings, CountPhrase(errors, "error"), CountPhrase(warnings, "warning"))
  }

  /** The part of the summary naming the operation and its outcome. */
  function OutcomeText(success: bool, name: string, items: int): string {
    if success then
      name + " completed successfully" + (if items > 0 then " (" + IntToString(items) + " items)" else [])
    else name + " failed"
  }

  /** The plural "s" is added exactly when the count exceeds one. */
  lemma {:induction false} CountPhrasePlural(n: int, noun: string)
    requires noun != [] && noun[|noun| - 1] != 's'
    ensures StartsWith(CountPhrase(n, noun), IntToString(n) + " " + noun)
    ensures CountPhrase(n, noun)[|CountPhrase(n, noun)| - 1] == 's' <==> n > 1
  {
    var p := IntToString(n) + " " + noun;
    assert p[|p| - 1] == noun[|noun| - 1];
    assert CountPhrase(n, noun)[..|p|] == p;
  }

  /**
   * The issues suffix is empty without errors and warnings; otherwise it
   * starts with " - " and lists the errors first, then the warnings,
   * separated by ", " only when both are present.
   */
  lemma {:induction false} IssuesShape(errors: int, warnings: int)
    ensures IssuesText(errors, warnings) == [] <==> errors <= 0 && warnings <= 0
    ensures IssuesText(errors, warnings) != [] ==> StartsWith(IssuesText(errors, warnings), " - ")
    ensures errors > 0 && warnings > 0 ==>
              IssuesText(errors, warnings) == " - " + CountPhrase(errors, "error") + ", " + CountPhrase(warnings, "warning")
    ensures errors > 0 && warnings <= 0 ==> IssuesText(errors, warnings) == " - " + CountPhrase(errors, "error")
    ensures errors <= 0 && warnings > 0 ==> IssuesText(errors, warnings) == " - " + CountPhrase(warnings, "warning")
  {
    var e, w := CountPhrase(errors, "error"), CountPhrase(warnings, "warning");
    if errors > 0 || warnings > 0 {
      var r := IssuesFrom(errors, warnings, e, w);
      assert r[..3] == " - ";
      if errors > 0 && warnings <= 0 {
        assert r == " - " + e + [] + [];
      } else if errors <= 0 {
        assert r == " - " + [] + [] + w;
      }
    }
  }

  /**
   * The summary starts with the operation name and then says "completed
   * successfully" or "failed"; the item count appears only for a success with
   * a positive count.
   */
  lemma {:induction false} OutcomeShape(success: bool, name: string, items: int)
    ensures success ==> StartsWith(OutcomeText(success, name, items), name + " completed successfully")
    ensures !success ==> OutcomeText(success, name, items) == name + " failed"
    ensures success && items <= 0 ==> OutcomeText(success, name, items) == name + " completed successfully"
    ensures success && items > 0 ==>
              OutcomeText(success, name, items) == name + " completed successfully (" + IntToString(items) + " items)"
  {
    var head := name + " completed successfully";
    if success {
      assert OutcomeText(success, name, items)[..|head|] == head;
    }
  }

  class OperationResult {
    var success: bool
    var operationName: string
    var operationDetail: string
    var itemsProcessed: int
    var itemsSuccessful: int
    var itemsSkipped: int
    var timeElapsedSeconds: real
    var messages: seq<OperationMessage>

    constructor (succeeded: bool, opName: string)
      ensures success == succeeded && operationName == opName && operationDetail == ""
      ensures itemsProcessed == 0 && itemsSuccessful == 0 && itemsSkipped == 0
      ensures timeElapsedSeconds == 0.0 && messages == []
    {
      success := succeeded;
      operationName := opName;
      operationDetail := "";
      itemsProcessed := 0;
      itemsSuccessful := 0;
      itemsSkipped := 0;
      timeElapsedSeconds := 0.0;
      messages := [];
    }

    method AddInfo(msg: string, context: string)
      modifies this`messages
      ensures messages == old(messages) + [OperationMessage(Info, msg, context)]
    {
      messages := messages + [OperationMessage(Info, msg, context)];
    }

    method AddWarning(msg: string, context: string)
      modifies this`messages
      ensures messages == old(messages) + [OperationMessage(Warning, msg, context)]
    {
      messages := messages + [OperationMessage(Warning, msg, context)];
    }

    method AddError(msg: string, context: string)
      modifies this`messages
      ensures messages == old(messages) + [OperationMessage(Error, msg, context)]
    {
      messages := messages + [OperationMessage(Error, msg, context)];
    }

    function GetWarningCount(): (n: nat)
      reads this
      ensures n == CountOf(messages, Warning)
    {
      CountOf(messages, Warning)
    }

    function GetErrorCount(): (n: nat)
      reads this
      ensures n == CountOf(messages, Error)
    {
      CountOf(messages, Error)
    }

    function GetInfoCount(): (n: nat)
      reads this
      ensures n == CountOf(messages, Info)
    {
      CountOf(messages, Info)
    }

    /** The loop shared by getWarnings / getErrors / getInfos. */
    method Collect(sev: MessageSeverity) returns (r: seq<OperationMessage>)
      ensures r == Filter(messages, sev)
      ensures |r| == CountOf(messages, sev)
    {
      r := [];
      var i := 0;
      while i < |messages|
        invariant 0 <= i <= |messages|
        invariant r == Filter(messages[..i], sev)
      {
        assert messages[..i + 1][..i] == messages[..i];
        if messages[i].severity == sev {
          r := r + [messages[i]];
        }
        i := i + 1;
      }
      assert messages[..i] == messages;
      FilterLength(messages, sev);
    }

    method GetWarnings() returns (r: seq<OperationMessage>)
      ensures r == Filter(messages, Warning) && |r| == GetWarningCount()
    {
      r := Collect(Warning);
    }

    method GetErrors() returns (r: seq<OperationMessage>)
      ensures r == Filter(messages, Error) && |r| == GetErrorCount()
    {
      r := Collect(Error);
    }

    method GetInfos() returns (r: seq<OperationMessage>)
      ensures r == Filter(messages, Info) && |r| == GetInfoCount()
    {
      r := Collect(Info);
    }

    /** getSummary: the outcome, then the error and warning counts. */
    method GetSummary() returns (summary: string)
      ensures summary == OutcomeText(success, operationName, itemsProcessed)
                         + IssuesText(GetErrorCount(), GetWarningCount())
    {
      summary := AppendOutcome("", success, operationName, itemsProcessed);
      ghost var outcome := OutcomeText(success, operationName, itemsProcessed);
      assert summary == outcome by {
        assert [] + outcome == outcome;
      }
      var warningCount := GetWarningCount();
      var errorCount := GetErrorCount();
      summary := AppendIssues(summary, errorCount, warningCount);
    }
  }

  /** Appending `piece` to `head + tail` is extending the tail. */
  lemma {:induction false} ExtendTail(head: string, tail: string, piece: string)
    ensures (head + tail) + piece == head + (tail + piece)
  {
  }

  /** The first half of getSummary: the operation name and its outcome appended to `head`. */
  method AppendOutcome(head: string, success: bool, operationName: string, itemsProcessed: int) returns (summary: string)
    ensures summary == head + OutcomeText(success, operationName, itemsProcessed)
  {
    summary := head;
    if success {
      ghost var tail := operationName + " completed successfully";
      ExtendTail(head, operationName, " completed successfully");
      summary := summary + operationName + " completed successfully";
      if itemsProcessed > 0 {
        ghost var items := " (" + IntToString(itemsProcessed) + " items)";
        assert summary + " (" + IntToString(itemsProcessed) + " items)" == summary + items;
        ExtendTail(head, tail, items);
        summary := summary + " (" + IntToString(itemsProcessed) + " items)";
        tail := tail + items;
      }
      assert tail == OutcomeText(success, operationName, itemsProcessed);
    } else {
      ExtendTail(head, operationName, " failed");
      summary := summary + operationName + " failed";
    }
  }

  /** The second half of getSummary: the error and warning counts appended to `summary`. */
  method AppendIssues(head: string, errorCount: int, warningCount: int) returns (summary: string)
    ensures summary == head + IssuesText(errorCount, warningCount)
  {
    summary := head;
    var errorPhrase := CountPhrase(errorCount, "error");
    var warningPhrase := CountPhrase(warningCount, "warning");
    ghost var tail: string := [];
    if warningCount > 0 || errorCount > 0 {
      summary := summary + " - ";
      tail := " - ";
      if errorCount > 0 {
        ExtendTail(head, tail, errorPhrase);
        summary := summary + errorPhrase;
        tail := tail + errorPhrase;
      }
      if warningCount > 0 && errorCount > 0 {
        ExtendTail(head, tail, ", ");
        summary := summary + ", ";
        tail := tail + ", ";
      }
      if warningCount > 0 {
        ExtendTail(head, tail, warningPhrase);
        summary := summary + warningPhrase;
        tail := tail + warningPhrase;
      }
    }
    assert summary == head + tail;
    assert tail == IssuesFrom(errorCount, warningCount, errorPhrase, warningPhrase);
  }

  /** createSuccess: succeeded, every item processed successfully, no messages. */
  method CreateSuccess(opName: string, itemCount: int) returns (r: OperationResult)
    ensures fresh(r)
    ensures r.success && r.operationName == opName
    ensures r.itemsProcessed == itemCount && r.itemsSuccessful == itemCount
    ensures r.messages == []
  {
    r := new OperationResult(true, opName);
    r.itemsProcessed := itemCount;
    r.itemsSuccessful := itemCount;
  }

  /** createFailure: failed, with the one error message given. */
  method CreateFailure(opName: string, errorMsg: string) returns (r: OperationResult)
    ensures fresh(r)
    ensures !r.success && r.operationName == opName
    ensures r.messages == [OperationMessage(Error, errorMsg, "")]
    ensures r.GetErrorCount() == 1 && r.GetWarningCount() == 0
  {
    r := new OperationResult(false, opName);
    r.AddError(errorMsg, "");
  }

  /** The summary tells a success from a failure for the same operation name. */
  lemma {:induction false} SummaryShowsOutcome(name: string, items1: int, issues1: string, items2: int, issues2: string)
    ensures OutcomeText(true, name, items1) + issues1 != OutcomeText(false, name, items2) + issues2
  {
    var a := OutcomeText(true, name, items1) + issues1;
    var b := OutcomeText(false, name, items2) + issues2;
    assert a[|name| + 1] == (name + " completed successfully")[|name| + 1] == 'c';
    assert b[|name| + 1] == (name + " failed")[|name| + 1] == 'f';
  }

  /** Worked examples of the summary line. */
  lemma {:induction false} SuccessSummaryExample()
    ensures OutcomeText(true, "Import SRT", 0) + IssuesText(0, 0) == "Import SRT completed successfully"
  {
    assert IssuesText(0, 0) == [];
  }

  lemma {:induction false} FailureSummaryExample()
    ensures OutcomeText(false, "Export", 0) + IssuesText(1, 2) == "Export failed - 1 error, 2 warnings"
  {
    CountPhraseExamples();
  }

  lemma {:induction false} CountPhraseExamples()
    ensures CountPhrase(1, "error") == "1 error"
    ensures CountPhrase(2, "warning") == "2 warnings"
  {
    assert IntToString(1) == "1" && IntToString(2) == "2";
  }
}
