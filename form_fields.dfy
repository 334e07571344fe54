/**
 * The form-field store of src/ui/hooks/useFormFields.ts: one state cell holding
 * a record from field name to string value, replaced by `OnFieldChange` and
 * `OnFieldsClear`.
 */
module FormFields {

  import opened Wrappers

  const PostCode := "postCode"
  const HouseNumber := "houseNumber"
  const FirstName := "firstName"
  const LastName := "lastName"
  const SelectedAddress := "selectedAddress"

  /** The five keys of the initial record. */
  const FieldNames: set<string> := {PostCode, HouseNumber, FirstName, LastName, SelectedAddress}

  /** The initial record: every one of the five fields holds the empty string. */
  function InitialFieldValues(): (m: map<string, string>)
    ensures m.Keys == FieldNames
    ensures forall k :: k in m ==> m[k] == ""
  {
    map[PostCode := "", HouseNumber := "", FirstName := "", LastName := "", SelectedAddress := ""]
  }

  /**
   * The record copy `{ ...prev, [name]: value }`: the named field takes the new
   * value, every other field keeps its own, and a name that was not a key yet
   * becomes one (the field name is typed as an arbitrary string).
   */
  function WithField(prev: map<string, string>, name: string, value: string): (next: map<string, string>)
    ensures next.Keys == prev.Keys + {name}
    ensures next[name] == value
    ensures forall k :: k in prev && k != name ==> next[k] == prev[k]
  {
    prev[name := value]
  }

  /** A field write as the form's change handlers issue it. */
  datatype Write = Write(name: string, value: string)

  /** The record after a sequence of writes, applied left to right. */
  function ApplyWrites(m: map<string, string>, ws: seq<Write>): map<string, string>
    decreases |ws|
  {
    if ws == [] then m else ApplyWrites(WithField(m, ws[0].name, ws[0].value), ws[1..])
  }

  /** The value of the last write to `name` in `ws`, if there is one: a reference definition for reads. */
  function LastWrite(ws: seq<Write>, name: string): Option<string>
    decreases |ws|
  {
    if ws == [] then None
    else if ws[|ws| - 1].name == name then Some(ws[|ws| - 1].value)
    else LastWrite(ws[..|ws| - 1], name)
  }

  /** True when every write in `ws` names one of the five form fields. */
  predicate KnownNames(ws: seq<Write>)
  {
    forall i :: 0 <= i < |ws| ==> ws[i].name in FieldNames
  }

  /** Applying `ws` then `ws'` is applying their concatenation. */
  lemma {:induction false} ApplyWritesAppend(m: map<string, string>, ws: seq<Write>, ws': seq<Write>)
    ensures ApplyWrites(m, ws + ws') == ApplyWrites(ApplyWrites(m, ws), ws')
    decreases |ws|
  {
    if ws == [] {
      assert ws + ws' == ws';
    } else {
      assert (ws + ws')[0] == ws[0];
      assert (ws + ws')[1..] == ws[1..] + ws';
      ApplyWritesAppend(WithField(m, ws[0].name, ws[0].value), ws[1..], ws');
    }
  }

  /**
   * Keys preserved: whatever writes are applied, the five keys stay present;
   * when every write names a known field, the key set stays exactly the five names.
   */
  lemma {:induction false} KeysPreserved(m: map<string, string>, ws: seq<Write>)
    requires FieldNames <= m.Keys
    ensures FieldNames <= ApplyWrites(m, ws).Keys
    ensures m.Keys == FieldNames && KnownNames(ws) ==> ApplyWrites(m, ws).Keys == FieldNames
    decreases |ws|
  {
    if ws != [] {
      var m' := WithField(m, ws[0].name, ws[0].value);
      assert KnownNames(ws) ==> KnownNames(ws[1..]) && ws[0].name in FieldNames;
      KeysPreserved(m', ws[1..]);
    }
  }

  /**
   * A read after a sequence of writes sees the last write to that field, or the
   * starting value when the sequence never writes it.
   */
  lemma {:induction false} ReadAfterWrites(m: map<string, string>, ws: seq<Write>, name: string)
    requires name in m || LastWrite(ws, name).Some?
    ensures name in ApplyWrites(m, ws)
    ensures ApplyWrites(m, ws)[name] == match LastWrite(ws, name) case Some(v) => v case None => m[name]
    decreases |ws|
  {
    if ws != [] {
      var init, last := ws[..|ws| - 1], ws[|ws| - 1];
      assert ws == init + [last];
      ApplyWritesAppend(m, init, [last]);
      var mid := ApplyWrites(m, init);
      assert ApplyWrites(m, ws) == ApplyWrites(mid, [last]);
      assert ApplyWrites(mid, [last]) == ApplyWrites(WithField(mid, last.name, last.value), []);
      if last.name != name {
        ReadAfterWrites(m, init, name);
      }
    }
  }

  /**
   * Last write wins: two consecutive writes to the same field, anywhere in a
   * sequence of writes, have the effect of the second one alone.
   */
  lemma {:induction false} LastWriteWins(m: map<string, string>, before: seq<Write>, name: string,
                                          v1: string, v2: string, after: seq<Write>)
    ensures ApplyWrites(m, before + [Write(name, v1), Write(name, v2)] + after)
         == ApplyWrites(m, before + [Write(name, v2)] + after)
  {
    var mid := ApplyWrites(m, before);
    ApplyWritesAppend(m, before + [Write(name, v1), Write(name, v2)], after);
    ApplyWritesAppend(m, before, [Write(name, v1), Write(name, v2)]);
    ApplyWritesAppend(m, before + [Write(name, v2)], after);
    ApplyWritesAppend(m, before, [Write(name, v2)]);
    assert [Write(name, v1), Write(name, v2)][1..] == [Write(name, v2)];
    assert ApplyWrites(mid, [Write(name, v1), Write(name, v2)])
        == ApplyWrites(WithField(WithField(mid, name, v1), name, v2), []);
    assert ApplyWrites(mid, [Write(name, v2)]) == ApplyWrites(WithField(mid, name, v2), []);
    assert WithField(WithField(mid, name, v1), name, v2) == WithField(mid, name, v2);
  }

  /** The hook's state cell `fields` together with its two updaters. */
  class FieldStore {
    var fields: map<string, string>

    /** The five form fields are always present. */
    ghost predicate Valid()
      reads this
    {
      FieldNames <= fields.Keys
    }

    /** `useState(initialFieldValues)`. */
    constructor ()
      ensures Valid()
      ensures fields == InitialFieldValues()
    {
      fields := InitialFieldValues();
    }

    /** The current value of one of the five form fields. */
    function Get(name: string): string
      reads this
      requires Valid()
      requires name in FieldNames
    {
      fields[name]
    }

    /** `onFieldChange({ fieldName, fieldValue })`: sets one field, leaves every other. */
    method OnFieldChange(name: string, value: string)
      requires Valid()
      modifies this
      ensures Valid()
      ensures fields == WithField(old(fields), name, value)
      ensures fields[name] == value
      ensures forall k :: k in old(fields) && k != name ==> k in fields && fields[k] == old(fields)[k]
    {
      fields := WithField(fields, name, value);
    }

    /** `onFieldsClear()`: back to the initial record, from any state (so clearing twice is clearing once). */
    method OnFieldsClear()
      modifies this
      ensures Valid()
      ensures fields == InitialFieldValues()
    {
      fields := InitialFieldValues();
    }
  }
}
