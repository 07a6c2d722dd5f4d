/** The toast queue: short notices shown in the order they were raised. Each
    toast's id is the clock reading when it was raised, passed in here, and
    its expiry timer is the explicit `Expire` event. */
module ToastStore {
  import opened Util

  datatype Severity = Success | Error | Info

  datatype Toast = Toast(id: int, message: string, severity: Severity)

  /** The `type = 'success'` default of `addToast`. */
  function SeverityOrDefault(severity: Option<Severity>): Severity {
    if severity.Some? then severity.value else Success
  }

  /** `addToast(message, type)`: the new toast goes last. */
  function Raised(toasts: seq<Toast>, id: int, message: string, severity: Option<Severity>): (r: seq<Toast>)
    ensures |r| == |toasts| + 1 && r[..|toasts|] == toasts
    ensures r[|toasts|] == Toast(id, message, SeverityOrDefault(severity))
  {
    toasts + [Toast(id, message, SeverityOrDefault(severity))]
  }

  /** `removeToast(id)` and the expiry timer: every toast with that id goes,
      the others stay in order. */
  function Dismissed(toasts: seq<Toast>, id: int): (r: seq<Toast>)
    ensures forall t :: t in r <==> t in toasts && t.id != id
    ensures forall t :: multiset(r)[t] == if t.id != id then multiset(toasts)[t] else 0
    ensures IsSubseq(r, toasts)
  {
    Filter(toasts, (t: Toast) => t.id != id)
  }

  /** A toast raised under a newest id and then dismissed leaves the queue as it was. */
  lemma RaiseThenDismiss(toasts: seq<Toast>, id: int, message: string, severity: Option<Severity>)
    requires forall t :: t in toasts ==> t.id != id
    ensures Dismissed(Raised(toasts, id, message, severity), id) == toasts
  {
    var keep := (t: Toast) => t.id != id;
    var newest := Toast(id, message, SeverityOrDefault(severity));
    FilterConcat(toasts, [newest], keep);
    FilterAll(toasts, keep);
    assert Filter([newest], keep) == [];
    assert toasts + [] == toasts;
  }

  /** Two toasts raised in the same millisecond share an id, so the first
      one's timer dismisses both of them. */
  lemma SameIdDismissedTogether(toasts: seq<Toast>, id: int, m1: string, m2: string, s1: Option<Severity>, s2: Option<Severity>)
    ensures var both := Raised(Raised(toasts, id, m1, s1), id, m2, s2);
      Toast(id, m1, SeverityOrDefault(s1)) in both && Toast(id, m2, SeverityOrDefault(s2)) in both
      && forall t :: t in Dismissed(both, id) ==> t.id != id
  {
    var both := Raised(Raised(toasts, id, m1, s1), id, m2, s2);
    assert both[|toasts|] == Toast(id, m1, SeverityOrDefault(s1));
    assert both[|toasts| + 1] == Toast(id, m2, SeverityOrDefault(s2));
  }

  class Toasts {
    var toasts: seq<Toast>

    constructor()
      ensures toasts == []
    {
      toasts := [];
    }

    /** `addToast(message, type)` with the clock reading `now` as the id. */
    method AddToast(message: string, severity: Option<Severity>, now: int)
      modifies this
      ensures toasts == Raised(old(toasts), now, message, severity)
    {
      toasts := toasts + [Toast(now, message, SeverityOrDefault(severity))];
    }

    method RemoveToast(id: int)
      modifies this
      ensures toasts == Dismissed(old(toasts), id)
    {
      toasts := Dismissed(toasts, id);
    }

    /** The timer `addToast` starts, firing after its duration. */
    method Expire(id: int)
      modifies this
      ensures toasts == Dismissed(old(toasts), id)
    {
      RemoveToast(id);
    }
  }
}
