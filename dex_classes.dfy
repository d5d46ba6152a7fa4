/**
 * The class list the activity offers in its "smali", "decompile" and
 * "disassemble" pickers. Each class of the compiled `classes.dex` is known by
 * its type descriptor (`Lcom/example/Main;`); the list shows it as a dotted
 * name (`com.example.Main`): every `/` becomes `.` and the first and the last
 * character are cut off. A descriptor too short to cut makes the whole list
 * fail, as does a `classes.dex` that cannot be loaded.
 */
module DexClasses {
  import opened Options
  import opened JavaStrings

  /**
   * `type.replace("/", ".").substring(1, length - 1)`; `None` where the
   * substring call throws, that is for a descriptor shorter than two characters.
   */
  function DottedName(descriptor: string): (r: Option<string>)
    ensures r.Some? <==> |descriptor| >= 2
    ensures r.Some? ==> |r.value| == |descriptor| - 2 && '/' !in r.value
    ensures r.Some? ==> forall i :: 0 <= i < |r.value| ==>
      (r.value[i] == '.' <==> descriptor[i + 1] in "/.")
  {
    if |descriptor| < 2 then None
    else Some(ReplaceChar(descriptor, '/', '.')[1..|descriptor| - 1])
  }

  /** A class type descriptor: `L`, an internal name, `;`. */
  predicate IsClassDescriptor(descriptor: string)
  {
    |descriptor| >= 2 && descriptor[0] == 'L' && descriptor[|descriptor| - 1] == ';'
  }

  /**
   * Lists the classes of a loaded dex file, in the dex file's order. `table`
   * holds the type descriptors of its class definitions, or is `None` when
   * loading failed; the result is `None` when loading failed or some
   * descriptor could not be converted.
   */
  method GetClassesFromDex(table: Option<seq<string>>) returns (classes: Option<seq<string>>)
    ensures classes.Some? <==>
      table.Some? && forall i :: 0 <= i < |table.value| ==> |table.value[i]| >= 2
    ensures classes.Some? ==> |classes.value| == |table.value|
    ensures classes.Some? ==>
      forall i :: 0 <= i < |table.value| ==> DottedName(table.value[i]) == Some(classes.value[i])
  {
    if table.None? {
      return None;
    }
    var descriptors := table.value;
    var names: seq<string> := [];
    for i := 0 to |descriptors|
      invariant |names| == i
      invariant forall j :: 0 <= j < i ==> |descriptors[j]| >= 2
      invariant forall j :: 0 <= j < i ==> DottedName(descriptors[j]) == Some(names[j])
    {
      var name := DottedName(descriptors[i]);
      if name.None? {
        return None;
      }
      names := names + [name.value];
    }
    return Some(names);
  }

  /** The dotted name of `Ls;` is `s` with every `/` turned into `.`. */
  lemma DescriptorInterior(s: string)
    ensures DottedName("L" + s + ";") == Some(ReplaceChar(s, '/', '.'))
  {
    var d := "L" + s + ";";
    var r := ReplaceChar(d, '/', '.')[1..|d| - 1];
    assert forall i :: 0 <= i < |s| ==> r[i] == ReplaceChar(s, '/', '.')[i] by {
      forall i | 0 <= i < |s| ensures r[i] == ReplaceChar(s, '/', '.')[i] {
        assert d[i + 1] == s[i];
      }
    }
    assert r == ReplaceChar(s, '/', '.');
  }

  /**
   * Two class descriptors whose internal names hold no `.` get the same
   * dotted name only when they are the same descriptor, so the class list
   * names each such class once.
   */
  lemma DottedNameInjective(a: string, b: string)
    requires IsClassDescriptor(a) && IsClassDescriptor(b)
    requires '.' !in a && '.' !in b
    requires DottedName(a) == DottedName(b)
    ensures a == b
  {
    var x, y := a[1..|a| - 1], b[1..|b| - 1];
    assert a == "L" + x + ";";
    assert b == "L" + y + ";";
    DescriptorInterior(x);
    DescriptorInterior(y);
    ReplaceCharRoundTrip(x, '/', '.');
    ReplaceCharRoundTrip(y, '/', '.');
  }
}
