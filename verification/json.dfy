/** The untyped object trees of `unstructured.Unstructured` and the accessors of pkg/unstructured. */
module Json {
  import opened Text

  datatype Json = Null | Bool(flag: bool) | Number(number: int) | Literal(text: string)
                | List(items: seq<Json>) | Tree(fields: Fields)

  type Fields = map<string, Json>

  /** The Go type asked for in `GetNested[T]`. */
  datatype Want = WantBool | WantText | WantList | WantTree

  predicate IsA(v: Json, want: Want) {
    match want
    case WantBool => v.Bool?
    case WantText => v.Literal?
    case WantList => v.List?
    case WantTree => v.Tree?
  }

  /** Walks `keys` into the tree. A value of the wanted type is returned as soon as one is met, even
      when keys are left over; None stands for the zero value of the wanted type. */
  function GetNested(fields: Fields, keys: seq<string>, want: Want): (found: Option<Json>)
    ensures found.Some? ==> IsA(found.value, want)
    decreases |keys|
  {
    if keys == [] || keys[0] !in fields then None
    else
      var v := fields[keys[0]];
      if IsA(v, want) then Some(v)
      else if v.Tree? && |keys| > 1 then GetNested(v.fields, keys[1..], want)
      else None
  }

  /** What sits at the end of the path, whatever its type. */
  function At(fields: Fields, keys: seq<string>): Option<Json>
    decreases |keys|
  {
    if keys == [] || keys[0] !in fields then None
    else if |keys| == 1 then Some(fields[keys[0]])
    else
      match fields[keys[0]]
      case Tree(sub) => At(sub, keys[1..])
      case _ => None
  }

  function Typed(found: Option<Json>, want: Want): Option<Json> {
    if found.Some? && IsA(found.value, want) then found else None
  }

  /** Some proper, nonempty prefix of the path already holds a value of the wanted type. */
  ghost predicate MetEarly(fields: Fields, keys: seq<string>, want: Want) {
    exists n | 1 <= n < |keys| :: Typed(At(fields, keys[..n]), want).Some?
  }

  lemma {:induction false} MetEarlyStep(fields: Fields, keys: seq<string>, want: Want)
    requires |keys| > 1 && keys[0] in fields && fields[keys[0]].Tree? && want != WantTree
    ensures MetEarly(fields, keys, want) <==> MetEarly(fields[keys[0]].fields, keys[1..], want)
  {
    var sub := fields[keys[0]].fields;
    forall n | 2 <= n <= |keys|
      ensures At(fields, keys[..n]) == At(sub, keys[1..][..n - 1])
    {
      assert keys[..n][1..] == keys[1..][..n - 1];
    }
    assert At(fields, keys[..1]) == Some(fields[keys[0]]);
    if MetEarly(fields, keys, want) {
      var n :| 1 <= n < |keys| && Typed(At(fields, keys[..n]), want).Some?;
      assert n >= 2;
      assert Typed(At(sub, keys[1..][..n - 1]), want).Some?;
    }
    if MetEarly(sub, keys[1..], want) {
      var n :| 1 <= n < |keys| - 1 && Typed(At(sub, keys[1..][..n]), want).Some?;
      assert keys[1..][..(n + 1) - 1] == keys[1..][..n];
      assert Typed(At(fields, keys[..n + 1]), want).Some?;
    }
  }

  /** What sits deeper in a tree is a smaller value than the tree. */
  lemma {:induction false} DeeperIsSmaller(fields: Fields, keys: seq<string>)
    requires At(fields, keys).Some?
    ensures At(fields, keys).value < Tree(fields)
    decreases |keys|
  {
    var v := fields[keys[0]];
    assert v in fields.Values;
    if |keys| > 1 {
      DeeperIsSmaller(v.fields, keys[1..]);
    }
  }

  /** A tree on the way is what a lookup of trees stops at, and is not what sits at the end. */
  lemma TreesStopEarly(fields: Fields, keys: seq<string>)
    requires |keys| > 1 && keys[0] in fields && fields[keys[0]].Tree?
    ensures MetEarly(fields, keys, WantTree) && GetNested(fields, keys, WantTree) == Some(fields[keys[0]])
    ensures GetNested(fields, keys, WantTree) != Typed(At(fields, keys), WantTree)
  {
    assert keys[..1][0] == keys[0];
    assert Typed(At(fields, keys[..1]), WantTree).Some?;
    var v := fields[keys[0]];
    if At(v.fields, keys[1..]).Some? {
      DeeperIsSmaller(v.fields, keys[1..]);
    }
  }

  /** `GetNested` is the plain path lookup if and only if no value of the wanted type is met on the way. */
  lemma {:induction false} GetNestedExact(fields: Fields, keys: seq<string>, want: Want)
    ensures !MetEarly(fields, keys, want) <==> GetNested(fields, keys, want) == Typed(At(fields, keys), want)
    decreases |keys|
  {
    assert forall n | 1 <= n < |keys| :: keys[..n][0] == keys[0];
    if |keys| > 1 && keys[0] in fields {
      var v := fields[keys[0]];
      if !v.Tree? {
        assert At(fields, keys[..1]) == Some(v);
      } else if want == WantTree {
        TreesStopEarly(fields, keys);
      } else {
        MetEarlyStep(fields, keys, want);
        GetNestedExact(v.fields, keys[1..], want);
      }
    }
  }

  function Str(fields: Fields, keys: seq<string>): string {
    match GetNested(fields, keys, WantText)
    case Some(Literal(t)) => t
    case _ => ""
  }

  function Flag(fields: Fields, keys: seq<string>): bool {
    match GetNested(fields, keys, WantBool)
    case Some(Bool(b)) => b
    case _ => false
  }

  /** Texts and flags are read from where the path leads, unless a value of their type is met on the way; where there is
      none at its end, the reading is empty or false. */
  lemma ReadingsExact(fields: Fields, keys: seq<string>)
    ensures !MetEarly(fields, keys, WantText) ==>
      Str(fields, keys) == (match At(fields, keys) case Some(Literal(t)) => t case _ => "")
    ensures !MetEarly(fields, keys, WantBool) ==>
      (Flag(fields, keys) <==> At(fields, keys) == Some(Bool(true)))
  {
    GetNestedExact(fields, keys, WantText);
    GetNestedExact(fields, keys, WantBool);
    hide GetNested, At, MetEarly;
  }
}
