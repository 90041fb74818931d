/**
 * The playground script's user profile and its tool-call handler: the
 * arguments of each `update_user_info` call are copied onto the profile,
 * and each such call is answered "User info stored".
 *
 * A profile is modelled by its instance dictionary `attrs` (`__dict__`).
 * `hasattr` also finds the two methods the class defines, so an argument
 * named after one of them is stored as an instance attribute and shadows
 * the method; the next call of that method then raises `TypeError`.
 */
module Playground {
  import opened Wrappers
  import opened Payload
  import opened ToolProtocol

  /** The six profile fields, all `None` in a new profile. */
  const PROFILE_FIELDS: set<string> := {"name", "date_of_move", "street", "postal_code", "city", "previous_address"}

  /** The methods of the class, which `hasattr` finds on every profile. */
  const METHOD_NAMES: set<string> := {"update_from_args", "to_serializable"}

  /** A call of the playground's tools; its arguments are JSON values, or absent. */
  datatype ToolCall = ToolCall(id: string, name: string, args: Option<seq<(string, Json)>>)

  /** The instance dictionary of `UserProfile()`. */
  function EmptyProfile(): (d: map<string, Json>)
    ensures d.Keys == PROFILE_FIELDS
    ensures forall k :: k in d ==> d[k] == JNull
  {
    map k | k in PROFILE_FIELDS :: JNull
  }

  /** `hasattr(self, key)` for a profile whose instance dictionary is `attrs`. */
  predicate HasAttr(attrs: map<string, Json>, key: string): (b: bool)
    ensures key in METHOD_NAMES ==> b
    ensures PROFILE_FIELDS <= attrs.Keys && key in PROFILE_FIELDS ==> b
    ensures !b ==> key !in attrs
  {
    key in attrs || key in METHOD_NAMES
  }

  /**
   * The instance dictionary after `update_from_args(args)`, the items taken
   * in order: no attribute is removed, and only a method name can be added.
   */
  function Apply(attrs: map<string, Json>, args: seq<(string, Json)>): (r: map<string, Json>)
    ensures attrs.Keys <= r.Keys <= attrs.Keys + METHOD_NAMES
    decreases |args|
  {
    if args == [] then attrs
    else
      var prev := Apply(attrs, args[..|args| - 1]);
      var (key, value) := args[|args| - 1];
      if value != JNull && HasAttr(prev, key) then prev[key := value] else prev
  }

  /** The value the last non-`None` item for `key` carries, if there is one. */
  function LastSet(args: seq<(string, Json)>, key: string): (v: Option<Json>)
    ensures v.None? <==> forall j :: 0 <= j < |args| && args[j].0 == key ==> args[j].1 == JNull
    ensures v.Some? ==> v.value != JNull && exists j :: (
      && 0 <= j < |args| && args[j] == (key, v.value)
      && forall later :: j < later < |args| && args[later].0 == key ==> args[later].1 == JNull)
    decreases |args|
  {
    if args == [] then None
    else if args[|args| - 1].0 == key && args[|args| - 1].1 != JNull then Some(args[|args| - 1].1)
    else
      var v := LastSet(args[..|args| - 1], key);
      assert forall j :: 0 <= j < |args| - 1 ==> args[..|args| - 1][j] == args[j];
      if v.Some? then LastSetCarried(args, args[..|args| - 1], key, v.value); v else v
  }

  /** A last non-`None` item of all but the final item stays the last one when the final item does not set `key`. */
  lemma LastSetCarried(args: seq<(string, Json)>, init: seq<(string, Json)>, key: string, x: Json)
    requires args != [] && init == args[..|args| - 1]
    requires !(args[|args| - 1].0 == key && args[|args| - 1].1 != JNull)
    requires exists j :: (
      && 0 <= j < |init| && init[j] == (key, x)
      && forall later :: j < later < |init| && init[later].0 == key ==> init[later].1 == JNull)
    ensures exists j :: (
      && 0 <= j < |args| && args[j] == (key, x)
      && forall later :: j < later < |args| && args[later].0 == key ==> args[later].1 == JNull)
  {
    var j :| && 0 <= j < |init| && init[j] == (key, x)
             && forall later :: j < later < |init| && init[later].0 == key ==> init[later].1 == JNull;
    assert args[j] == (key, x);
    forall later | j < later < |args| && args[later].0 == key
      ensures args[later].1 == JNull
    {
      if later < |init| {
        assert init[later] == args[later];
      }
    }
  }

  /**
   * `update_from_args`, key by key: a key the profile has an attribute for
   * ends holding the last non-`None` value given for it, or keeps its old
   * value when every value given for it is `None`; a key `hasattr` does not
   * find is ignored.
   */
  lemma {:induction false} ApplyByKey(attrs: map<string, Json>, args: seq<(string, Json)>, key: string)
    ensures key in Apply(attrs, args) <==> key in attrs || (key in METHOD_NAMES && LastSet(args, key).Some?)
    ensures key in Apply(attrs, args) ==>
      Apply(attrs, args)[key] == if LastSet(args, key).Some? then LastSet(args, key).value else attrs[key]
    decreases |args|
  {
    if args != [] {
      ApplyByKey(attrs, args[..|args| - 1], key);
    }
  }

  /** An attribute that is only ever given `None` keeps its value: `None` never erases data. */
  lemma NoneNeverErases(attrs: map<string, Json>, args: seq<(string, Json)>, key: string)
    requires key in attrs
    requires forall j :: 0 <= j < |args| && args[j].0 == key ==> args[j].1 == JNull
    ensures key in Apply(attrs, args) && Apply(attrs, args)[key] == attrs[key]
  {
    ApplyByKey(attrs, args, key);
  }

  /**
   * Arguments naming no method leave the profile's set of attributes as it
   * was: a new profile keeps exactly its six fields.
   */
  lemma KeysStay(attrs: map<string, Json>, args: seq<(string, Json)>)
    requires forall j :: 0 <= j < |args| ==> args[j].0 !in METHOD_NAMES
    ensures Apply(attrs, args).Keys == attrs.Keys
  {
    forall key | key in Apply(attrs, args) || key in attrs
      ensures key in Apply(attrs, args) <==> key in attrs
    {
      ApplyByKey(attrs, args, key);
    }
  }

  /** An argument named after a method is stored as an attribute of the profile. */
  lemma MethodNameStored(name: string, value: Json)
    requires name in METHOD_NAMES && value != JNull
    ensures var d := Apply(EmptyProfile(), [(name, value)]);
      d.Keys == PROFILE_FIELDS + {name} && d[name] == value
  {
    assert [(name, value)][..0] == [];
  }

  class UserProfile {
    /** The instance dictionary, `__dict__`. */
    var attrs: map<string, Json>

    /** `UserProfile()`: the six fields, all `None`. */
    constructor ()
      ensures attrs == EmptyProfile()
    {
      attrs := EmptyProfile();
    }

    /** `update_from_args`: each item with a non-`None` value and a key `hasattr` finds is set. */
    method UpdateFromArgs(args: seq<(string, Json)>)
      modifies this
      ensures attrs == Apply(old(attrs), args)
    {
      for i := 0 to |args|
        invariant attrs == Apply(old(attrs), args[..i])
      {
        assert args[..i + 1][..i] == args[..i];
        var (key, value) := args[i];
        if value != JNull && HasAttr(attrs, key) {
          attrs := attrs[key := value];
        }
      }
      assert args[..|args|] == args;
    }

    /** `to_serializable`: a copy of the instance dictionary, keys and values alike. */
    function ToSerializable(): (d: map<string, Json>)
      reads this
      ensures d.Keys == attrs.Keys && forall k :: k in d ==> d[k] == attrs[k]
    {
      attrs
    }
  }

  /** The response to an `update_user_info` call. */
  function Stored(call: ToolCall): FunctionResponse {
    FunctionResponse(call.id, call.name, map["output" := JStr("User info stored")])
  }

  /** The profile, the responses built so far, and whether an exception escaped. */
  datatype Played = Played(attrs: map<string, Json>, responses: seq<FunctionResponse>, raised: bool)

  /**
   * One call of the loop in `_handle_tool_calls`: any name but
   * `update_user_info` is only logged; that one updates the profile, logs
   * it and is answered, unless a shadowed method is called and raises.
   */
  function StepCall(attrs: map<string, Json>, call: ToolCall): (r: Played)
    ensures attrs.Keys <= r.attrs.Keys <= attrs.Keys + METHOD_NAMES
    ensures r.raised ==> r.responses == [] && call.name == "update_user_info"
    ensures !r.raised ==> r.responses == if call.name == "update_user_info" then [Stored(call)] else []
    ensures !r.raised && call.name == "update_user_info" ==> "to_serializable" !in r.attrs && "update_from_args" !in attrs
  {
    if call.name != "update_user_info" then Played(attrs, [], false)
    else if "update_from_args" in attrs then Played(attrs, [], true)
    else
      var updated := Apply(attrs, call.args.GetOr([]));
      if "to_serializable" in updated then Played(updated, [], true)
      else Played(updated, [Stored(call)], false)
  }

  /** The loop over the batch, stopped by the first exception. */
  function RunCalls(attrs: map<string, Json>, calls: seq<ToolCall>): (r: Played)
    ensures attrs.Keys <= r.attrs.Keys <= attrs.Keys + METHOD_NAMES
    ensures |r.responses| <= |calls|
    decreases |calls|
  {
    if calls == [] then Played(attrs, [], false)
    else
      var prev := RunCalls(attrs, calls[..|calls| - 1]);
      if prev.raised then prev
      else
        var step := StepCall(prev.attrs, calls[|calls| - 1]);
        Played(step.attrs, prev.responses + step.responses, step.raised)
  }

  /** Once a prefix of the batch has raised, the rest of the batch changes nothing. */
  lemma {:induction false} RaisedStays(attrs: map<string, Json>, calls: seq<ToolCall>, n: nat)
    requires n <= |calls| && RunCalls(attrs, calls[..n]).raised
    ensures RunCalls(attrs, calls) == RunCalls(attrs, calls[..n])
    decreases |calls|
  {
    if n < |calls| {
      assert calls[..|calls| - 1][..n] == calls[..n];
      RaisedStays(attrs, calls[..|calls| - 1], n);
    } else {
      assert calls[..n] == calls;
    }
  }

  /** The fold over one more call of a batch that has not raised. */
  lemma RunCallsStep(attrs: map<string, Json>, calls: seq<ToolCall>, i: nat)
    requires i < |calls| && !RunCalls(attrs, calls[..i]).raised
    ensures var prev := RunCalls(attrs, calls[..i]);
      var step := StepCall(prev.attrs, calls[i]);
      RunCalls(attrs, calls[..i + 1]) == Played(step.attrs, prev.responses + step.responses, step.raised)
  {
    assert calls[..i + 1][..i] == calls[..i];
  }

  /**
   * `_handle_tool_calls`: the profile ends as the fold `RunCalls` says; the
   * responses are sent once if there are any, and not at all when a call
   * raised.
   */
  method HandleToolCalls(calls: seq<ToolCall>, profile: UserProfile) returns (outcome: BatchOutcome)
    modifies profile
    ensures var r := RunCalls(old(profile.attrs), calls);
      && profile.attrs == r.attrs
      && outcome == if r.raised then Raised("TypeError") else Deliver(r.responses)
  {
    if calls == [] {
      return NothingSent;
    }
    ghost var start := profile.attrs;
    var responses: seq<FunctionResponse> := [];
    for i := 0 to |calls|
      invariant var r := RunCalls(start, calls[..i]);
        !r.raised && profile.attrs == r.attrs && responses == r.responses
    {
      RunCallsStep(start, calls, i);
      var call := calls[i];
      if call.name == "update_user_info" {
        if "update_from_args" in profile.attrs {
          RaisedStays(start, calls, i + 1);
          return Raised("TypeError");
        }
        profile.UpdateFromArgs(call.args.GetOr([]));
        if "to_serializable" in profile.ToSerializable() {
          RaisedStays(start, calls, i + 1);
          return Raised("TypeError");
        }
        responses := responses + [Stored(call)];
      }
    }
    assert calls[..|calls|] == calls;
    outcome := Deliver(responses);
  }

  /** The `update_user_info` calls of a batch, in order. */
  function UserInfoCalls(calls: seq<ToolCall>): seq<ToolCall>
    decreases |calls|
  {
    if calls == [] then []
    else
      UserInfoCalls(calls[..|calls| - 1])
      + (if calls[|calls| - 1].name == "update_user_info" then [calls[|calls| - 1]] else [])
  }

  /**
   * A batch that does not raise is answered with one "User info stored"
   * response per `update_user_info` call, in order, and no response for
   * any other name; an empty batch, or one without such calls, sends nothing.
   */
  lemma {:induction false} OnlyUserInfoAnswered(attrs: map<string, Json>, calls: seq<ToolCall>)
    ensures var r := RunCalls(attrs, calls);
      !r.raised ==>
        && |r.responses| == |UserInfoCalls(calls)|
        && forall i :: 0 <= i < |r.responses| ==> r.responses[i] == Stored(UserInfoCalls(calls)[i])
    ensures UserInfoCalls(calls) == [] ==> RunCalls(attrs, calls) == Played(attrs, [], false)
    decreases |calls|
  {
    if calls != [] {
      OnlyUserInfoAnswered(attrs, calls[..|calls| - 1]);
    }
  }

  /**
   * With no method shadowed at the start and no argument named after a
   * method, a batch never raises and the profile keeps its attributes.
   */
  lemma {:induction false} NeverRaisesWithoutMethodNames(attrs: map<string, Json>, calls: seq<ToolCall>)
    requires forall m :: m in METHOD_NAMES ==> m !in attrs
    requires forall i, j :: 0 <= i < |calls| && calls[i].args.Some? && 0 <= j < |calls[i].args.value| ==>
      calls[i].args.value[j].0 !in METHOD_NAMES
    ensures !RunCalls(attrs, calls).raised
    ensures RunCalls(attrs, calls).attrs.Keys == attrs.Keys
    decreases |calls|
  {
    if calls != [] {
      NeverRaisesWithoutMethodNames(attrs, calls[..|calls| - 1]);
      var prev := RunCalls(attrs, calls[..|calls| - 1]);
      var last := calls[|calls| - 1];
      KeysStay(prev.attrs, last.args.GetOr([]));
    }
  }

  /** An `update_user_info` argument named `to_serializable` makes the batch raise. */
  lemma ShadowedMethodRaises(call: ToolCall, value: Json)
    requires call.name == "update_user_info" && call.args == Some([("to_serializable", value)]) && value != JNull
    ensures RunCalls(EmptyProfile(), [call]).raised
  {
    MethodNameStored("to_serializable", value);
    assert [call][..0] == [];
  }
}
