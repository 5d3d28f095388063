/**
 * Status reconciliation of a GitTrackObject: a fresh status holding one
 * "in sync" condition is computed from the outcome of a reconcile pass and
 * written back to the API server only when it differs from the status the
 * object already has. The object is a class whose `Status` field is replaced
 * in place; the API client is a class that records every object passed to
 * `Update`.
 */
module GitTrackObjectController {
  import opened Wrappers

  type ConditionType = string

  type ConditionReason = string

  /** The condition type reporting whether the child object is in sync. */
  const ObjectInSyncType: ConditionType := "ObjectInSync"

  /** The reason recorded when the child object was applied. */
  const ChildAppliedSuccess: ConditionReason := "ChildAppliedSuccess"

  datatype ConditionStatus = ConditionTrue | ConditionFalse | ConditionUnknown

  /** A status condition (transition timestamps are not modelled). */
  datatype Condition = Condition(
    condType: ConditionType,
    status: ConditionStatus,
    reason: ConditionReason,
    message: string)

  datatype GitTrackObjectStatus = GitTrackObjectStatus(conditions: seq<Condition>)

  /** Metadata and spec of the object: carried along, never inspected here. */
  datatype ObjectMeta = ObjectMeta(name: string, namespace: string, resourceVersion: string)

  datatype GitTrackObjectSpec = GitTrackObjectSpec(name: string, kind: string, data: seq<bv8>)

  /** The value of a whole object, as compared and as written to the API server. */
  datatype GitTrackObjectValue = GitTrackObjectValue(
    meta: ObjectMeta,
    spec: GitTrackObjectSpec,
    status: GitTrackObjectStatus)

  /** The outcome of a reconcile pass; an error is given by its text. */
  datatype StatusOpts = StatusOpts(inSyncError: Option<string>, inSyncReason: ConditionReason)

  // ---------------------------------------------------------------------
  // The condition list (the status utilities' get and set)
  // ---------------------------------------------------------------------

  /** At most one condition per type: the status is a set keyed by type. */
  predicate UniqueTypes(conds: seq<Condition>)
  {
    forall i, j :: 0 <= i < j < |conds| ==> conds[i].condType != conds[j].condType
  }

  /** The condition of type t, if there is one (the first, should there be several). */
  function GetCondition(conds: seq<Condition>, t: ConditionType): (r: Option<Condition>)
    ensures r.Some? ==> r.value in conds && r.value.condType == t
    ensures r.None? ==> forall c :: c in conds ==> c.condType != t
  {
    if conds == [] then None
    else if conds[0].condType == t then Some(conds[0])
    else GetCondition(conds[1..], t)
  }

  /**
   * `SetGitTrackObjectCondition`: replaces the condition of c's type where it
   * stands, or appends c if there is none.
   */
  function SetGitTrackObjectCondition(conds: seq<Condition>, c: Condition): (r: seq<Condition>)
    ensures c in r
    ensures forall x :: x in r ==> x == c || x in conds
    ensures forall x :: x in conds && x.condType != c.condType ==> x in r
  {
    if conds == [] then [c]
    else if conds[0].condType == c.condType then [c] + conds[1..]
    else [conds[0]] + SetGitTrackObjectCondition(conds[1..], c)
  }

  /** After setting c, c is the condition of its type and every other type reads as before. */
  lemma {:induction false} SetThenGet(conds: seq<Condition>, c: Condition, t: ConditionType)
    ensures GetCondition(SetGitTrackObjectCondition(conds, c), t) ==
            if t == c.condType then Some(c) else GetCondition(conds, t)
  {
    if conds != [] && conds[0].condType != c.condType {
      SetThenGet(conds[1..], c, t);
    }
  }

  /** Setting a condition keeps at most one condition per type. */
  lemma SetKeepsUniqueTypes(conds: seq<Condition>, c: Condition)
    requires UniqueTypes(conds)
    ensures UniqueTypes(SetGitTrackObjectCondition(conds, c))
  {
    if i :| 0 <= i < |conds| && conds[i].condType == c.condType {
      SetReplacesInPlace(conds, c, i);
    } else {
      SetAppendsNewType(conds, c);
    }
  }

  /** A condition whose type is present replaces it at the same position. */
  lemma {:induction false} SetReplacesInPlace(conds: seq<Condition>, c: Condition, i: nat)
    requires i < |conds| && conds[i].condType == c.condType
    requires forall j :: 0 <= j < i ==> conds[j].condType != c.condType
    ensures SetGitTrackObjectCondition(conds, c) == conds[i := c]
  {
    if i > 0 {
      SetReplacesInPlace(conds[1..], c, i - 1);
      assert conds[i := c] == [conds[0]] + conds[1..][i - 1 := c];
    }
  }

  /** A condition of a new type is appended at the end. */
  lemma {:induction false} SetAppendsNewType(conds: seq<Condition>, c: Condition)
    requires forall x :: x in conds ==> x.condType != c.condType
    ensures SetGitTrackObjectCondition(conds, c) == conds + [c]
  {
    if conds != [] {
      assert conds[0] in conds;
      assert forall x :: x in conds[1..] ==> x in conds;
      SetAppendsNewType(conds[1..], c);
      assert conds + [c] == [conds[0]] + (conds[1..] + [c]);
    }
  }

  // ---------------------------------------------------------------------
  // Computing the status
  // ---------------------------------------------------------------------

  /** `newStatusOpts`: the options of a pass that applied the child object. */
  function NewStatusOpts(): (o: StatusOpts)
    ensures o.inSyncError.None? && o.inSyncReason == ChildAppliedSuccess
    ensures DesiredStatus(o).conditions ==
            [Condition(ObjectInSyncType, ConditionTrue, ChildAppliedSuccess, "")]
  {
    StatusOpts(None, ChildAppliedSuccess)
  }

  /**
   * `setCondition`: sets the condition of type condType to False with the
   * error's text when there is an error, and to True with an empty message
   * otherwise, with the given reason either way.
   */
  function SetCondition(status: GitTrackObjectStatus, condType: ConditionType,
                        condErr: Option<string>, reason: ConditionReason): (s: GitTrackObjectStatus)
    ensures GetCondition(s.conditions, condType).Some?
    ensures var c := GetCondition(s.conditions, condType).value;
            c.reason == reason &&
            (condErr.Some? ==> c.status == ConditionFalse && c.message == condErr.value) &&
            (condErr.None? ==> c.status == ConditionTrue && c.message == "")
    ensures forall t :: t != condType ==> GetCondition(s.conditions, t) == GetCondition(status.conditions, t)
    ensures UniqueTypes(status.conditions) ==> UniqueTypes(s.conditions)
  {
    var cond :=
      if condErr.Some? then Condition(condType, ConditionFalse, reason, condErr.value)
      else Condition(condType, ConditionTrue, reason, "");
    SetThenGetAll(status.conditions, cond);
    assert UniqueTypes(status.conditions) ==>
           UniqueTypes(SetGitTrackObjectCondition(status.conditions, cond)) by {
      if UniqueTypes(status.conditions) {
        SetKeepsUniqueTypes(status.conditions, cond);
      }
    }
    GitTrackObjectStatus(SetGitTrackObjectCondition(status.conditions, cond))
  }

  /** SetThenGet for every type at once. */
  lemma SetThenGetAll(conds: seq<Condition>, c: Condition)
    ensures forall t :: GetCondition(SetGitTrackObjectCondition(conds, c), t) ==
                        if t == c.condType then Some(c) else GetCondition(conds, t)
  {
    forall t {
      SetThenGet(conds, c, t);
    }
  }

  /**
   * The status a pass computes from its options: one in-sync condition, True
   * exactly when there was no error.
   */
  function DesiredStatus(opts: StatusOpts): (s: GitTrackObjectStatus)
    ensures |s.conditions| == 1 && UniqueTypes(s.conditions)
    ensures GetCondition(s.conditions, ObjectInSyncType) == Some(s.conditions[0])
    ensures s.conditions[0].reason == opts.inSyncReason
    ensures s.conditions[0].status == ConditionTrue <==> opts.inSyncError.None?
    ensures s.conditions ==
            [Condition(ObjectInSyncType,
                       if opts.inSyncError.Some? then ConditionFalse else ConditionTrue,
                       opts.inSyncReason,
                       if opts.inSyncError.Some? then opts.inSyncError.value else "")]
  {
    SetCondition(GitTrackObjectStatus([]), ObjectInSyncType, opts.inSyncError, opts.inSyncReason)
  }

  /** Different options give different statuses: nothing about a pass's outcome is lost. */
  lemma DesiredStatusInjective(o1: StatusOpts, o2: StatusOpts)
    requires DesiredStatus(o1) == DesiredStatus(o2)
    ensures o1 == o2
  {
  }

  // ---------------------------------------------------------------------
  // The object and the API client
  // ---------------------------------------------------------------------

  class GitTrackObject {
    var Meta: ObjectMeta
    var Spec: GitTrackObjectSpec
    var Status: GitTrackObjectStatus

    function Value(): GitTrackObjectValue
      reads this
    {
      GitTrackObjectValue(Meta, Spec, Status)
    }

    constructor (v: GitTrackObjectValue)
      ensures Value() == v
    {
      Meta, Spec, Status := v.meta, v.spec, v.status;
    }

    /** `DeepCopy`: a new object with the same value. */
    method DeepCopy() returns (c: GitTrackObject)
      ensures fresh(c) && c.Value() == Value()
    {
      c := new GitTrackObject(Value());
    }
  }

  /** The API client; its only write path is `Update`. */
  class Client {
    /** Every object passed to `Update`, in call order. */
    var Updates: seq<GitTrackObjectValue>
    /** The API server's answer to an update: an error's text, or none. */
    const Reply: Option<string>

    constructor (reply: Option<string>)
      ensures Updates == [] && Reply == reply
    {
      Updates, Reply := [], reply;
    }

    method Update(obj: GitTrackObject) returns (err: Option<string>)
      modifies this`Updates
      ensures Updates == old(Updates) + [obj.Value()] && err == Reply
    {
      Updates := Updates + [obj.Value()];
      err := Reply;
    }
  }

  /**
   * `updateGitTrackObjectStatus`: replaces the object's status by the desired
   * one, reporting whether it differed. A nil object is left alone.
   */
  method UpdateGitTrackObjectStatus(gto: GitTrackObject?, opts: StatusOpts) returns (updated: bool)
    modifies gto
    ensures gto == null ==> !updated
    ensures gto != null ==> updated == (old(gto.Status) != DesiredStatus(opts))
    ensures gto != null ==> gto.Value() == old(gto.Value()).(status := DesiredStatus(opts))
  {
    updated := false;
    if gto == null {
      return;
    }
    var status := DesiredStatus(opts);
    if gto.Status != status {
      gto.Status := status;
      updated := true;
    }
  }

  /** The error `updateStatus` returns when the API server refuses the write. */
  datatype UpdateStatusError = UpdateFailed(cause: string)

  class ReconcileGitTrackObject {
    const client: Client

    constructor (client: Client)
      ensures this.client == client
    {
      this.client := client;
    }

    /**
     * `updateStatus`: works on a copy of `original`, and writes the copy at
     * most once, only when its status changed; the write differs from
     * `original` in its status alone.
     */
    method UpdateStatus(original: GitTrackObject?, opts: StatusOpts) returns (err: Option<UpdateStatusError>)
      modifies client`Updates
      ensures original != null ==> original.Value() == old(original.Value())
      ensures |client.Updates| <= |old(client.Updates)| + 1
      ensures original == null ==> client.Updates == old(client.Updates) && err == None
      ensures original != null && original.Status == DesiredStatus(opts) ==>
                client.Updates == old(client.Updates) && err == None
      ensures original != null && original.Status != DesiredStatus(opts) ==>
                client.Updates == old(client.Updates) + [original.Value().(status := DesiredStatus(opts))] &&
                err == (if client.Reply.Some? then Some(UpdateFailed(client.Reply.value)) else None)
    {
      var gto: GitTrackObject? := null;
      if original != null {
        gto := original.DeepCopy();
      }
      var gtoUpdated := UpdateGitTrackObjectStatus(gto, opts);
      if gtoUpdated {
        var updateErr := client.Update(gto);
        if updateErr.Some? {
          return Some(UpdateFailed(updateErr.value));
        }
      }
      return None;
    }
  }
}
