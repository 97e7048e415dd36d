/** The JSON-backed helpers that customers, suppliers, products and stores share:
    tag lists, custom-field / attribute / setting dictionaries, and available credit.
    A JSON column that is `None` or empty is the empty list or map here; the Python
    code turns the one into the other before writing. */
module Collections {
  import opened Wrappers

  /** A value stored in a JSON column. */
  datatype Json =
    | JNull
    | JBool(b: bool)
    | JNumber(n: real)
    | JString(s: string)
    | JList(items: seq<Json>)
    | JObject(fields: map<string, Json>)

  predicate NoDuplicates<T(==)>(s: seq<T>) {
    forall i, j :: 0 <= i < j < |s| ==> s[i] != s[j]
  }

  /** `if tag not in tags: tags.append(tag)` */
  function AddTag(tags: seq<string>, tag: string): (r: seq<string>)
    ensures tags <= r && |r| <= |tags| + 1
    ensures (set t | t in r) == (set t | t in tags) + {tag}
  {
    if tag in tags then tags else tags + [tag]
  }

  /** Adding a tag twice is the same as adding it once. */
  lemma AddTagIdempotent(tags: seq<string>, tag: string)
    ensures AddTag(AddTag(tags, tag), tag) == AddTag(tags, tag)
  {
  }

  /** Tags added only through `AddTag` never repeat. */
  lemma AddTagKeepsDistinct(tags: seq<string>, tag: string)
    requires NoDuplicates(tags)
    ensures NoDuplicates(AddTag(tags, tag))
  {
  }

  /** `if tags and tag in tags: tags.remove(tag)`: drops the first occurrence. */
  function RemoveTag(tags: seq<string>, tag: string): (r: seq<string>)
    ensures tag !in tags ==> r == tags
    ensures tag in tags ==> |r| == |tags| - 1
    ensures multiset(r) == multiset(tags) - multiset{tag}
  {
    if tags == [] then []
    else
      assert tags == [tags[0]] + tags[1..];
      if tags[0] == tag then tags[1..]
      else [tags[0]] + RemoveTag(tags[1..], tag)
  }

  /** In a list without repeats, removing a tag leaves no copy of it. */
  lemma RemoveTagGone(tags: seq<string>, tag: string)
    requires NoDuplicates(tags)
    ensures tag !in RemoveTag(tags, tag)
  {
    var r := RemoveTag(tags, tag);
    assert multiset(tags)[tag] <= 1 by {
      if tag in tags {
        var i :| 0 <= i < |tags| && tags[i] == tag;
        assert tags == tags[..i] + [tag] + tags[i + 1..];
        assert tag !in tags[..i] && tag !in tags[i + 1..];
        assert multiset(tags[..i])[tag] == 0 && multiset(tags[i + 1..])[tag] == 0;
      }
    }
    assert multiset(r)[tag] == 0;
  }

  /** Removing a tag that was just added to a list without it restores the list. */
  lemma {:induction false} RemoveAfterAdd(tags: seq<string>, tag: string)
    requires tag !in tags
    ensures RemoveTag(AddTag(tags, tag), tag) == tags
  {
    var added := tags + [tag];
    assert AddTag(tags, tag) == added;
    if tags == [] {
      assert RemoveTag(added, tag) == [];
    } else {
      assert added[0] == tags[0] != tag;
      assert added[1..] == tags[1..] + [tag];
      RemoveAfterAdd(tags[1..], tag);
      assert RemoveTag(added, tag) == [tags[0]] + RemoveTag(added[1..], tag);
      assert tags == [tags[0]] + tags[1..];
    }
  }

  /** `fields.get(key, default)`, where an unset column behaves as an empty map. */
  function GetField(fields: map<string, Json>, key: string, default: Json): (v: Json)
    ensures key !in fields ==> v == default
    ensures key in fields ==> v == fields[key]
  {
    if key in fields then fields[key] else default
  }

  /** Reading a key back after writing it gives the written value; other keys keep theirs. */
  lemma GetAfterSet(fields: map<string, Json>, key: string, value: Json, other: string, default: Json)
    ensures GetField(fields[key := value], key, default) == value
    ensures other != key ==> GetField(fields[key := value], other, default) == GetField(fields, other, default)
  {
  }

  /** `max(0, credit_limit - current_balance)` */
  function AvailableCredit(creditLimit: real, currentBalance: real): (r: real)
    ensures r >= 0.0 && r >= creditLimit - currentBalance
    ensures r == 0.0 || r == creditLimit - currentBalance
    ensures r > 0.0 <==> currentBalance < creditLimit
  {
    Max(0.0, creditLimit - currentBalance)
  }
}
