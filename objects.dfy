/**
 * Heap objects of object.h / object.cpp: strings and functions, the
 * allocation list and the string intern table. Object pointers are indices
 * into an arena, so reference identity (an index) and content equality (the
 * characters) are kept apart.
 */
module Objects {
  import opened Wrappers
  import opened Values
  import opened Chunks

  datatype ObjType = OString | OFunction

  /** A compiled function: its arity and name are set after allocation, while it is being compiled. */
  class Function {
    var arity: int
    var name: Option<ObjRef>
    const chunk: Chunk

    /** The state new_function leaves: arity 0, no name, an empty chunk. */
    constructor ()
      ensures arity == 0 && name == None
      ensures fresh(chunk) && fresh(chunk.constants) && chunk.Valid() && chunk.Empty()
    {
      arity := 0;
      name := None;
      chunk := new Chunk();
    }
  }

  datatype Obj = StringObj(chars: string) | FunctionObj(fn: Function)
  {
    function Type(): (t: ObjType)
      ensures t == OString <==> StringObj?
    {
      if StringObj? then OString else OFunction
    }
  }

  class Heap {
    /** Every object ever allocated; a reference is an index here. */
    var objects: seq<Obj>
    /** The vm.objects list, head first. */
    var list: seq<ObjRef>
    /** The keys of vm.strings, the interned strings. */
    var strings: set<ObjRef>

    /** The list holds every object, newest first, and only strings are interned. */
    ghost predicate Wf()
      reads this
    {
      && |list| == |objects|
      && (forall i :: 0 <= i < |list| ==> list[i] == |objects| - 1 - i)
      && (forall r :: r in strings ==> r < |objects| && objects[r].StringObj?)
    }

    /** No two interned strings have the same characters. */
    ghost predicate Unique()
      reads this
      requires Wf()
    {
      forall r, r' :: r in strings && r' in strings && objects[r].chars == objects[r'].chars ==> r == r'
    }

    ghost predicate Valid()
      reads this
    {
      Wf() && Unique()
    }

    /** Some interned string has these characters. */
    ghost predicate HasString(chars: string)
      reads this
      requires Wf()
    {
      exists r :: r in strings && objects[r].chars == chars
    }

    /** initVM: no objects and an empty intern table. */
    constructor ()
      ensures Valid() && objects == [] && list == [] && strings == {}
    {
      objects, list, strings := [], [], {};
    }

    /** allocate_object: the new object is prepended to the allocation list. */
    method AllocateObject(o: Obj) returns (r: ObjRef)
      requires Wf()
      modifies this
      ensures Wf()
      ensures r == |old(objects)| && objects == old(objects) + [o]
      ensures list == [r] + old(list) && strings == old(strings)
      ensures old(Unique()) ==> Unique()
    {
      r := |objects|;
      objects := objects + [o];
      list := [r] + list;
    }

    /** new_function: a fresh function with arity 0, no name and an empty chunk. */
    method NewFunction() returns (f: Function, r: ObjRef)
      requires Wf()
      modifies this
      ensures Wf()
      ensures fresh(f) && fresh(f.chunk) && fresh(f.chunk.constants)
      ensures f.arity == 0 && f.name == None && f.chunk.Valid() && f.chunk.Empty()
      ensures r == |old(objects)| && objects == old(objects) + [FunctionObj(f)]
      ensures list == [r] + old(list) && strings == old(strings)
      ensures old(Unique()) ==> Unique()
    {
      f := new Function();
      r := AllocateObject(FunctionObj(f));
    }

    /** is_object_type: an object value whose object has the given type. */
    function IsObjectType(v: Value, t: ObjType): (b: bool)
      reads this
      requires v.ObjectVal? ==> v.obj < |objects|
      ensures b ==> v.ObjectVal?
      ensures v.ObjectVal? ==> (b <==> objects[v.obj].Type() == t)
    {
      v.ObjectVal? && objects[v.obj].Type() == t
    }

    /** allocate_string: a new string object, registered in the intern table. */
    method AllocateString(chars: string) returns (r: ObjRef)
      requires Wf()
      modifies this
      ensures Wf()
      ensures r == |old(objects)| && objects == old(objects) + [StringObj(chars)]
      ensures list == [r] + old(list) && strings == old(strings) + {r}
      ensures old(Unique()) && !old(HasString(chars)) ==> Unique()
    {
      r := AllocateObject(StringObj(chars));
      strings := strings + {r};
      assert forall k :: k in old(strings) ==> objects[k] == old(objects[k]);
    }

    /**
     * find_key: scan the table, in no particular order, for a key with the
     * same length and bytes.
     */
    method FindKey(chars: string) returns (found: Option<ObjRef>)
      requires Wf()
      ensures found.Some? ==> found.value in strings && objects[found.value] == StringObj(chars)
      ensures found.None? <==> !HasString(chars)
    {
      var rest := strings;
      while rest != {}
        invariant rest <= strings
        invariant forall k :: k in strings - rest ==> objects[k].chars != chars
        decreases |rest|
      {
        var k :| k in rest;
        if |objects[k].chars| == |chars| && objects[k].chars == chars {
          return Some(k);
        }
        rest := rest - {k};
      }
      return None;
    }

    /**
     * take_string: the interned string with these characters if there is
     * one (the buffer is then released), otherwise the buffer becomes the
     * new canonical string.
     */
    method TakeString(chars: string) returns (r: ObjRef)
      requires Valid()
      modifies this
      ensures Valid()
      ensures r in strings && objects[r] == StringObj(chars)
      ensures old(HasString(chars)) ==>
        r in old(strings) && objects == old(objects) && list == old(list) && strings == old(strings)
      ensures !old(HasString(chars)) ==>
        r == |old(objects)| && objects == old(objects) + [StringObj(chars)]
        && list == [r] + old(list) && strings == old(strings) + {r}
    {
      var interned := FindKey(chars);
      if interned.Some? {
        return interned.value;
      }
      r := AllocateString(chars);
    }

    /**
     * copy_string: the interned string with these characters if there is
     * one, otherwise a copy of the characters registered as a new string.
     */
    method CopyString(chars: string) returns (r: ObjRef)
      requires Valid()
      modifies this
      ensures Valid()
      ensures r in strings && objects[r] == StringObj(chars)
      ensures old(HasString(chars)) ==>
        r in old(strings) && objects == old(objects) && list == old(list) && strings == old(strings)
      ensures !old(HasString(chars)) ==>
        r == |old(objects)| && objects == old(objects) + [StringObj(chars)]
        && list == [r] + old(list) && strings == old(strings) + {r}
    {
      var interned := FindKey(chars);
      if interned.Some? {
        return interned.value;
      }
      var copy := chars[..];
      r := AllocateString(copy);
    }

    /** Two copies of the same characters are the same object. */
    method CopyStringTwice(chars: string) returns (a: ObjRef, b: ObjRef)
      requires Valid()
      modifies this
      ensures Valid()
      ensures a == b && a in strings && objects[a] == StringObj(chars)
    {
      a := CopyString(chars);
      b := CopyString(chars);
      InternedIsCanonical(a, b);
    }

    /** Interned strings compare equal by content exactly when they are the same object. */
    lemma InternedIsCanonical(r: ObjRef, r': ObjRef)
      requires Valid() && r in strings && r' in strings
      ensures objects[r].chars == objects[r'].chars <==> r == r'
    {
    }
  }
}
