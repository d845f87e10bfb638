/** `AIAdvisor`: the button that asks for advice and the advice, error and loading
    state it shows. */
module AIAdvisor {
  import opened Ledger
  import opened AdviceAction

  const ErrorMessage: string := "Failed to get advice. Please try again."

  class Advisor {
    var advice: string
    var isLoading: bool
    var error: Option<string>

    constructor ()
      ensures advice == "" && !isLoading && error == None
    {
      advice := "";
      isLoading := false;
      error := None;
    }

    /** `disabled={isLoading}`. */
    predicate ButtonDisabled()
      reads this
    {
      isLoading
    }

    /** The three setters that open `handleGetAdvice`. */
    method StartRequest()
      modifies this
      ensures isLoading && error == None && advice == ""
    {
      isLoading := true;
      error := None;
      advice := "";
    }

    /** The `try`/`catch`/`finally` after the action settles: any throw, whatever its
        message, shows the component's own message. */
    method FinishRequest(result: AdviceResult)
      modifies this
      ensures !isLoading && !ButtonDisabled()
      ensures result.Insights? ==> advice == result.insights && error == old(error)
      ensures result.Thrown? ==> error == Some(ErrorMessage) && advice == old(advice)
    {
      if result.Insights? {
        advice := result.insights;
      } else {
        error := Some(ErrorMessage);
      }
      isLoading := false;
    }

    /** `handleGetAdvice` with the advisor's outcome as input. */
    method HandleGetAdvice(outcome: Outcome<string>)
      modifies this
      ensures !isLoading
      ensures outcome.Succeeded? ==> advice == outcome.value && error == None
      ensures outcome.Failed? ==> advice == "" && error == Some(ErrorMessage)
    {
      StartRequest();
      var result := GetFinancialAdvice(outcome);
      FinishRequest(result);
    }
  }
}
