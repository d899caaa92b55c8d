/**
 * The application-wide loading indicator: whether something is loading, the
 * message shown, and a percentage. Every property setter raises a
 * PropertyChanged notification only when the value really changes, and the
 * IsLoading setter also raises LoadingStateChanged(isLoading, message).
 */
module Loading {

  const DefaultMessage: string := "Loading..."

  /** The three observable fields of the indicator. */
  datatype LoadingState = LoadingState(isLoading: bool, message: string, percentage: int)

  const Initial := LoadingState(false, DefaultMessage, 0)

  /** `Math.Clamp(value, lo, hi)` for lo <= hi. */
  function Clamp(value: int, lo: int, hi: int): (r: int)
    requires lo <= hi
    ensures lo <= r <= hi
    ensures lo <= value <= hi ==> r == value
    ensures value < lo ==> r == lo
    ensures value > hi ==> r == hi
  {
    if value < lo then lo else if value > hi then hi else value
  }

  /** StartLoading: the message and percentage as given (no clamping), loading on. */
  function Start(s: LoadingState, message: string, percentage: int): (r: LoadingState)
    ensures r.isLoading && r.message == message && r.percentage == percentage
  {
    LoadingState(true, message, percentage)
  }

  /** UpdateLoading: ignored unless loading; otherwise new message and clamped percentage. */
  function Update(s: LoadingState, message: string, percentage: int): (r: LoadingState)
    ensures !s.isLoading ==> r == s
    ensures s.isLoading ==> r.isLoading && r.message == message && 0 <= r.percentage <= 100
    ensures s.isLoading && 0 <= percentage <= 100 ==> r.percentage == percentage
  {
    if s.isLoading then LoadingState(true, message, Clamp(percentage, 0, 100)) else s
  }

  /** StopLoading: back to the initial state. */
  function Stop(s: LoadingState): (r: LoadingState)
    ensures r == Initial
  {
    LoadingState(false, DefaultMessage, 0)
  }

  /**
   * The LoadingStateChanged events raised by going from `before` to `after` by one
   * of the three operations: one event exactly when IsLoading flips, carrying the
   * message current when the IsLoading setter runs (the new one for Start, which
   * sets the message first; the old one for Stop, which flips IsLoading first).
   */
  function StateChangedEvents(before: LoadingState, after: LoadingState, messageAtFlip: string): (events: seq<(bool, string)>)
    ensures |events| <= 1
    ensures |events| == 1 <==> before.isLoading != after.isLoading
  {
    if before.isLoading != after.isLoading then [(after.isLoading, messageAtFlip)] else []
  }

  /**
   * The PropertyChanged notifications (property names, in order) that StartLoading
   * raises from `s`: its setters run message, percentage, IsLoading, and each
   * notifies only on a real change.
   */
  function StartNotifications(s: LoadingState, message: string, percentage: int): (names: seq<string>)
    ensures |names| <= 3
    ensures "IsLoading" in names <==> !s.isLoading
  {
    (if s.message != message then ["LoadingMessage"] else [])
    + (if s.percentage != percentage then ["LoadingPercentage"] else [])
    + (if !s.isLoading then ["IsLoading"] else [])
  }

  /** The PropertyChanged notifications of UpdateLoading: none unless loading. */
  function UpdateNotifications(s: LoadingState, message: string, percentage: int): (names: seq<string>)
    ensures |names| <= 2 && "IsLoading" !in names
    ensures !s.isLoading ==> names == []
  {
    if !s.isLoading then []
    else (if s.message != message then ["LoadingMessage"] else [])
         + (if s.percentage != Clamp(percentage, 0, 100) then ["LoadingPercentage"] else [])
  }

  /** The PropertyChanged notifications of StopLoading: IsLoading first, then the resets. */
  function StopNotifications(s: LoadingState): (names: seq<string>)
    ensures |names| <= 3
    ensures "IsLoading" in names <==> s.isLoading
    ensures s == Initial <==> names == []
  {
    (if s.isLoading then ["IsLoading"] else [])
    + (if s.message != DefaultMessage then ["LoadingMessage"] else [])
    + (if s.percentage != 0 then ["LoadingPercentage"] else [])
  }

  /** A second StartLoading raises no LoadingStateChanged; neither does a second StopLoading. */
  lemma RepeatedStartOrStopNotifiesOnce(s: LoadingState, m1: string, p1: int, m2: string, p2: int)
    ensures |StateChangedEvents(s, Start(s, m1, p1), m1)| + |StateChangedEvents(Start(s, m1, p1), Start(Start(s, m1, p1), m2, p2), m2)|
            == (if s.isLoading then 0 else 1)
    ensures |StateChangedEvents(s, Stop(s), s.message)| + |StateChangedEvents(Stop(s), Stop(Stop(s)), Stop(s).message)|
            == (if s.isLoading then 1 else 0)
  {
  }

  /** Update never turns the indicator on or off, so it never raises LoadingStateChanged. */
  lemma UpdateNeverNotifies(s: LoadingState, m: string, p: int)
    ensures StateChangedEvents(s, Update(s, m, p), m) == []
  {
  }

  class LoadingService {
    var isLoading: bool
    var loadingMessage: string
    var loadingPercentage: int
    /** LoadingStateChanged invocations, oldest first. */
    var stateChanges: seq<(bool, string)>
    /** PropertyChanged invocations (property names), oldest first. */
    var propertyChanges: seq<string>

    function State(): LoadingState
      reads this
    {
      LoadingState(isLoading, loadingMessage, loadingPercentage)
    }

    constructor ()
      ensures State() == Initial
      ensures stateChanges == [] && propertyChanges == []
    {
      isLoading := false;
      loadingMessage := DefaultMessage;
      loadingPercentage := 0;
      stateChanges := [];
      propertyChanges := [];
    }

    /** The IsLoading setter. */
    method SetIsLoading(value: bool)
      modifies this
      ensures isLoading == value
      ensures loadingMessage == old(loadingMessage) && loadingPercentage == old(loadingPercentage)
      ensures propertyChanges == old(propertyChanges) + (if old(isLoading) != value then ["IsLoading"] else [])
      ensures stateChanges == old(stateChanges) + (if old(isLoading) != value then [(value, loadingMessage)] else [])
    {
      if isLoading != value {
        isLoading := value;
        propertyChanges := propertyChanges + ["IsLoading"];
        stateChanges := stateChanges + [(isLoading, loadingMessage)];
      }
    }

    /** The LoadingMessage setter. */
    method SetLoadingMessage(value: string)
      modifies this
      ensures loadingMessage == value
      ensures isLoading == old(isLoading) && loadingPercentage == old(loadingPercentage)
      ensures stateChanges == old(stateChanges)
      ensures propertyChanges == old(propertyChanges) + (if old(loadingMessage) != value then ["LoadingMessage"] else [])
    {
      if loadingMessage != value {
        loadingMessage := value;
        propertyChanges := propertyChanges + ["LoadingMessage"];
      }
    }

    /** The LoadingPercentage setter. */
    method SetLoadingPercentage(value: int)
      modifies this
      ensures loadingPercentage == value
      ensures isLoading == old(isLoading) && loadingMessage == old(loadingMessage)
      ensures stateChanges == old(stateChanges)
      ensures propertyChanges == old(propertyChanges) + (if old(loadingPercentage) != value then ["LoadingPercentage"] else [])
    {
      if loadingPercentage != value {
        loadingPercentage := value;
        propertyChanges := propertyChanges + ["LoadingPercentage"];
      }
    }

    method StartLoading(message: string, percentage: int)
      modifies this
      ensures State() == Start(old(State()), message, percentage)
      ensures stateChanges == old(stateChanges) + StateChangedEvents(old(State()), State(), message)
      ensures propertyChanges == old(propertyChanges) + StartNotifications(old(State()), message, percentage)
    {
      SetLoadingMessage(message);
      SetLoadingPercentage(percentage);
      SetIsLoading(true);
    }

    method UpdateLoading(message: string, percentage: int)
      modifies this
      ensures State() == Update(old(State()), message, percentage)
      ensures stateChanges == old(stateChanges)
      ensures propertyChanges == old(propertyChanges) + UpdateNotifications(old(State()), message, percentage)
    {
      if isLoading {
        SetLoadingMessage(message);
        SetLoadingPercentage(Clamp(percentage, 0, 100));
      }
    }

    method StopLoading()
      modifies this
      ensures State() == Stop(old(State()))
      ensures stateChanges == old(stateChanges) + StateChangedEvents(old(State()), State(), old(loadingMessage))
      ensures propertyChanges == old(propertyChanges) + StopNotifications(old(State()))
    {
      SetIsLoading(false);
      SetLoadingMessage(DefaultMessage);
      SetLoadingPercentage(0);
    }
  }
}
