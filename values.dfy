/** The Python values that appear as keyword arguments, both in the call
    formatter and in the arguments the language model supplies to a tool. */
module Values {
  import Text

  /** A keyword-argument value. `Other` stands for any further Python object
      and carries the text that its `str()` produces. */
  datatype Value = Str(s: string) | Int(i: int) | Bool(b: bool) | NoneValue | Other(text: string)

  /** Ordered keyword arguments, as a Python dict iterates them. */
  type Args = seq<(string, Value)>

  /** Python `str(v)` (what an f-string placeholder prints). */
  function ToStr(v: Value): string
  {
    match v
    case Str(s) => s
    case Int(i) => Text.IntToString(i)
    case Bool(b) => if b then "True" else "False"
    case NoneValue => "None"
    case Other(text) => text
  }

  /** `args.get(key)`: the value stored under `key` (its first entry), or None when absent. */
  function Get(args: Args, key: string): (v: Value)
    ensures v != NoneValue ==> exists i :: 0 <= i < |args| && args[i] == (key, v)
    ensures (forall i :: 0 <= i < |args| ==> args[i].0 != key) ==> v == NoneValue
    ensures forall i :: 0 <= i < |args| && args[i].0 == key && (forall j :: 0 <= j < i ==> args[j].0 != key) ==>
              v == args[i].1
  {
    if args == [] then NoneValue
    else if args[0].0 == key then args[0].1
    else Get(args[1..], key)
  }
}
