/** `call_function`: renders a function or method call with keyword
    arguments as Python source text, e.g. `sec.calculate_stress(mxx=5)`. */
module CallFormat {
  import opened Wrappers
  import opened Values
  import opened Text

  /** Python truthiness of the optional object name: None and "" are false. */
  predicate Truthy(objectName: Option<string>)
  {
    objectName.Some? && objectName.value != ""
  }

  /** One `key=value` entry; string values are enclosed in single quotes,
      every other value is written as its `str()`. */
  function RenderArg(key: string, v: Value): string
  {
    if v.Str? then key + "='" + v.s + "'" else key + "=" + ToStr(v)
  }

  /** The rendered entries, in the iteration order of the arguments. */
  function Entries(kwargs: Args): (entries: seq<string>)
    ensures |entries| == |kwargs|
    ensures forall i :: 0 <= i < |kwargs| ==> entries[i] == RenderArg(kwargs[i].0, kwargs[i].1)
  {
    seq(|kwargs|, i requires 0 <= i < |kwargs| => RenderArg(kwargs[i].0, kwargs[i].1))
  }

  /** The parameter list: the entries joined by ", ". */
  function Params(kwargs: Args): string
  {
    Join(Entries(kwargs), ", ")
  }

  /** The whole call text, prefixed by `object.` when the object name is truthy. */
  function FormatCall(functionName: string, objectName: Option<string>, kwargs: Args): string
  {
    (if Truthy(objectName) then objectName.value + "." else "") + functionName + "(" + Params(kwargs) + ")"
  }

  /** Each further argument adds exactly one ", " and then its own entry:
      the arguments appear in order, with no separator before the first
      entry and none after the last. */
  lemma ParamsSnoc(kwargs: Args, key: string, v: Value)
    ensures Params(kwargs + [(key, v)]) ==
            if kwargs == [] then RenderArg(key, v) else Params(kwargs) + ", " + RenderArg(key, v)
  {
    assert Entries(kwargs + [(key, v)]) == Entries(kwargs) + [RenderArg(key, v)];
    JoinSnoc(Entries(kwargs), RenderArg(key, v), ", ");
  }

  /** The formatter as the source writes it: one pass over the arguments
      collects the rendered entries, which are then joined. */
  method CallFunction(functionName: string, objectName: Option<string>, kwargs: Args) returns (call: string)
    ensures call == FormatCall(functionName, objectName, kwargs)
    ensures kwargs == [] && !Truthy(objectName) ==> call == functionName + "()"
    ensures Truthy(objectName) ==> call == objectName.value + "." + functionName + "(" + Params(kwargs) + ")"
    ensures !Truthy(objectName) ==> call == functionName + "(" + Params(kwargs) + ")"
  {
    var kwargsStr: seq<string> := [];
    var i := 0;
    while i < |kwargs|
      invariant 0 <= i <= |kwargs|
      invariant |kwargsStr| == i
      invariant forall j :: 0 <= j < i ==> kwargsStr[j] == RenderArg(kwargs[j].0, kwargs[j].1)
    {
      var (key, value) := kwargs[i];
      if value.Str? {
        kwargsStr := kwargsStr + [key + "='" + value.s + "'"];
      } else {
        kwargsStr := kwargsStr + [key + "=" + ToStr(value)];
      }
      i := i + 1;
    }
    assert kwargsStr == Entries(kwargs);
    var paramsString := Join(kwargsStr, ", ");
    if Truthy(objectName) {
      call := objectName.value + "." + functionName + "(" + paramsString + ")";
    } else {
      call := functionName + "(" + paramsString + ")";
    }
  }
}
