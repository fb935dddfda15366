/**
 * `mergeProps` of the Slot component: how the props given to a Slot are
 * merged into the props of its child element.
 *
 * Prop values are the JavaScript values the rule distinguishes: strings,
 * booleans, plain objects of string-valued entries (a `style`), named
 * functions, and the function built by composing two handlers.
 */
module Slot {
  import opened JsStrings
  import JsArrays

  datatype Value =
    | Undefined
    | Null
    | Bool(b: bool)
    | Str(s: string)
    | Obj(entries: map<string, string>)
    | Fn(name: string)
    | Composed(first: Value, second: Value)  // (...args) => { first(...args); second(...args); }

  predicate Truthy(v: Value) {
    match v
    case Undefined => false
    case Null => false
    case Bool(b) => b
    case Str(s) => s != ""
    case _ => true
  }

  /** The named functions a call of `v` runs, in order. */
  function Invocations(v: Value): seq<string> {
    match v
    case Fn(name) => [name]
    case Composed(first, second) => Invocations(first) + Invocations(second)
    case _ => []
  }

  /** `props[name]`: undefined when the key is absent. */
  function Lookup(props: map<string, Value>, name: string): Value {
    if name in props then props[name] else Undefined
  }

  /** The own entries `{...v}` copies; only plain objects contribute any. */
  function Spread(v: Value): map<string, string> {
    if v.Obj? then v.entries else map[]
  }

  /** `String(v)` as `join` renders it. */
  function Text(v: Value): string {
    match v
    case Str(s) => s
    case Bool(b) => if b then "true" else "false"
    case Obj(_) => "[object Object]"
    case Undefined => ""
    case Null => ""
    case _ => "function"
  }

  /** `parts.join(sep)`. */
  function Join(parts: seq<string>, sep: string): string {
    if |parts| == 0 then ""
    else if |parts| == 1 then parts[0]
    else parts[0] + sep + Join(parts[1..], sep)
  }

  /** `[slotValue, childValue].filter(Boolean).join(" ")`. */
  function ClassNames(slotValue: Value, childValue: Value): string {
    Join(JsArrays.Map(JsArrays.Filter([slotValue, childValue], Truthy), Text), " ")
  }

  /** The merged value of a key the child has, given both sides' values. */
  function MergeProp(name: string, slotValue: Value, childValue: Value): Value {
    if StartsWith(name, "on") then
      if Truthy(slotValue) && Truthy(childValue) then Composed(childValue, slotValue)
      else if Truthy(slotValue) then slotValue
      else childValue
    else if name == "style" then Obj(Spread(slotValue) + Spread(childValue))
    else if name == "className" then Str(ClassNames(slotValue, childValue))
    else childValue
  }

  /**
   * `mergeProps(slotProps, childProps)`: a loop over the child's keys that
   * overrides the child's value where a rule applies, then the slot's props
   * under the result.
   */
  method MergeProps(slotProps: map<string, Value>, childProps: map<string, Value>)
    returns (merged: map<string, Value>)
    ensures merged.Keys == slotProps.Keys + childProps.Keys
    ensures forall k :: k in slotProps && k !in childProps ==> merged[k] == slotProps[k]
    ensures forall k :: k in childProps ==> merged[k] == MergeProp(k, Lookup(slotProps, k), childProps[k])
  {
    var overrideProps := childProps;
    var remaining := childProps.Keys;
    while remaining != {}
      invariant remaining <= childProps.Keys
      invariant overrideProps.Keys == childProps.Keys
      invariant forall k :: k in remaining ==> overrideProps[k] == childProps[k]
      invariant forall k :: k in childProps && k !in remaining ==>
        overrideProps[k] == MergeProp(k, Lookup(slotProps, k), childProps[k])
      decreases remaining
    {
      var propName :| propName in remaining;
      var slotValue := Lookup(slotProps, propName);
      var childValue := childProps[propName];
      if StartsWith(propName, "on") {
        if Truthy(slotValue) && Truthy(childValue) {
          overrideProps := overrideProps[propName := Composed(childValue, slotValue)];
        } else if Truthy(slotValue) {
          overrideProps := overrideProps[propName := slotValue];
        }
      } else if propName == "style" {
        overrideProps := overrideProps[propName := Obj(Spread(slotValue) + Spread(childValue))];
      } else if propName == "className" {
        overrideProps := overrideProps[propName := Str(ClassNames(slotValue, childValue))];
      }
      remaining := remaining - {propName};
    }
    merged := slotProps + overrideProps;
  }

  // ----- What each rule means -----

  /** Two truthy handlers compose into one that runs the child's, then the slot's. */
  lemma HandlersCompose(name: string, slotValue: Value, childValue: Value)
    requires StartsWith(name, "on") && Truthy(slotValue) && Truthy(childValue)
    ensures Invocations(MergeProp(name, slotValue, childValue)) ==
      Invocations(childValue) + Invocations(slotValue)
  {
  }

  /** A handler key keeps the child's value unless only the slot's is truthy. */
  lemma HandlerFallback(name: string, slotValue: Value, childValue: Value)
    requires StartsWith(name, "on")
    ensures !Truthy(slotValue) ==> MergeProp(name, slotValue, childValue) == childValue
    ensures Truthy(slotValue) && !Truthy(childValue) ==> MergeProp(name, slotValue, childValue) == slotValue
  {
  }

  /** `style` is a shallow merge in which the child's entries win. */
  lemma StyleMerge(slotValue: Value, childValue: Value, key: string)
    ensures var m := MergeProp("style", slotValue, childValue);
      m.Obj? && m.entries.Keys == Spread(slotValue).Keys + Spread(childValue).Keys &&
      (key in Spread(childValue) ==> m.entries[key] == Spread(childValue)[key]) &&
      (key in Spread(slotValue) && key !in Spread(childValue) ==> m.entries[key] == Spread(slotValue)[key])
  {
    assert "style"[..2][0] == 's';
  }

  /** `className` is the slot's class then the child's, one space apart, falsy parts dropped. */
  lemma {:induction false} ClassNameJoin(slotValue: Value, childValue: Value)
    ensures MergeProp("className", slotValue, childValue) == Str(
      if Truthy(slotValue) && Truthy(childValue) then Text(slotValue) + " " + Text(childValue)
      else if Truthy(slotValue) then Text(slotValue)
      else if Truthy(childValue) then Text(childValue)
      else "")
  {
    assert "className"[..2][0] == 'c';
    var pair := [slotValue, childValue];
    assert pair[1..] == [childValue] && [childValue][1..] == [];
    var kept := JsArrays.Filter(pair, Truthy);
    assert kept == (if Truthy(slotValue) then [slotValue] else []) + JsArrays.Filter([childValue], Truthy);
    assert JsArrays.Filter([childValue], Truthy) ==
      (if Truthy(childValue) then [childValue] else []) + JsArrays.Filter([], Truthy);
    var texts := JsArrays.Map(kept, Text);
    assert JsArrays.Filter([], Truthy) == [];
    if Truthy(slotValue) && Truthy(childValue) {
      assert texts == [Text(slotValue), Text(childValue)];
      assert texts[1..] == [Text(childValue)];
      assert Join(texts[1..], " ") == Text(childValue);
      assert Join(texts, " ") == Text(slotValue) + " " + Text(childValue);
    } else if Truthy(slotValue) {
      assert kept == [slotValue];
      assert texts == [Text(slotValue)];
    } else if Truthy(childValue) {
      assert kept == [childValue];
      assert texts == [Text(childValue)];
    } else {
      assert kept == [];
    }
  }

  /** Any other key of the child keeps the child's value. */
  lemma ChildWins(name: string, slotValue: Value, childValue: Value)
    requires !StartsWith(name, "on") && name != "style" && name != "className"
    ensures MergeProp(name, slotValue, childValue) == childValue
  {
  }
}
