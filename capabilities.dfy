// The id-keyed registries of plugin capabilities: inference providers, image-generation
// providers and tools. All three keep one entry per key in a JavaScript `Map`, tag each
// entry with the plugin that registered it, and can drop every entry of one plugin.
// They differ only in the key (a provider's `id`, a tool's `name`), so one generic class
// models all three.

module Capabilities {
  import opened Wrappers
  import JsMap
  import Json

  /** An inference provider: its id and label (`title`). Client construction is an outcome the router is given. */
  datatype InferenceProvider = InferenceProvider(id: string, title: string)

  /** An image-generation provider: its id and label (`title`). Generation is an outcome the image tool is given. */
  datatype ImageProvider = ImageProvider(id: string, title: string)

  /** A tool's schema as the model sees it. */
  datatype Tool = Tool(name: string, description: string, parameters: Json.Value)

  /** A registered tool. Its `execute` behaviour is an outcome `Tools.Execute` is given. */
  datatype ToolDefinition = ToolDefinition(tool: Tool)

  function InferenceKey(p: InferenceProvider): string { p.id }
  function ImageKey(p: ImageProvider): string { p.id }
  function ToolKey(d: ToolDefinition): string { d.tool.name }

  /** A registered item together with the id of the plugin that registered it. */
  datatype Owned<T> = Owned(pluginId: string, item: T)

  /** `kept`, then the keys among `keys` whose entry is not owned by `pluginId`, in order:
      what walking `keys` and deleting the plugin's entries leaves. */
  function Unowned<T>(kept: seq<string>, keys: seq<string>, entries: map<string, Owned<T>>, pluginId: string): seq<string>
    requires forall k :: k in keys ==> k in entries
    decreases |keys|
  {
    if keys == [] then kept
    else if entries[keys[0]].pluginId == pluginId then Unowned(kept, keys[1..], entries, pluginId)
    else Unowned(kept + [keys[0]], keys[1..], entries, pluginId)
  }

  /** The walk keeps exactly the keys not owned by the plugin. */
  lemma {:induction false} UnownedMembers<T>(kept: seq<string>, keys: seq<string>, entries: map<string, Owned<T>>, pluginId: string)
    requires forall k :: k in keys ==> k in entries
    ensures forall k :: k in Unowned(kept, keys, entries, pluginId) <==> k in kept || (k in keys && entries[k].pluginId != pluginId)
    decreases |keys|
  {
    if keys != [] {
      if entries[keys[0]].pluginId == pluginId {
        UnownedMembers(kept, keys[1..], entries, pluginId);
      } else {
        UnownedMembers(kept + [keys[0]], keys[1..], entries, pluginId);
      }
      assert keys == [keys[0]] + keys[1..];
    }
  }

  /** An id-keyed registry; `keyOf` picks the key of an item (`id` or `tool.name`). */
  class Registry<T> {
    const keyOf: T -> string
    var entries: JsMap.Map<string, Owned<T>>

    ghost predicate Valid()
      reads this
    {
      entries.Valid()
    }

    constructor (keyOf: T -> string)
      ensures Valid() && this.keyOf == keyOf && entries.keys == []
    {
      this.keyOf := keyOf;
      entries := JsMap.Empty();
    }

    /** `register(pluginId, item)`: stores the item under its key, tagged with the plugin,
        replacing an earlier entry with that key (which keeps its place in the order). */
    method Register(pluginId: string, item: T)
      requires Valid()
      modifies this`entries
      ensures Valid()
      ensures entries == old(entries).Set(keyOf(item), Owned(pluginId, item))
    {
      entries := entries.Set(keyOf(item), Owned(pluginId, item));
    }

    /** `unregister(key)`: removes that key only. */
    method Unregister(key: string)
      requires Valid()
      modifies this`entries
      ensures Valid()
      ensures entries == old(entries).Delete(key)
    {
      entries := entries.Delete(key);
    }

    /** `unregisterByPlugin(pluginId)`: walks the entries in order, deleting those owned by
        the plugin; every other entry keeps its value and its place. */
    method UnregisterByPlugin(pluginId: string)
      requires Valid()
      modifies this`entries
      ensures Valid()
      ensures entries.keys == Unowned([], old(entries.keys), old(entries.entries), pluginId)
      ensures forall k :: k in entries.entries <==> k in old(entries.entries) && old(entries.entries)[k].pluginId != pluginId
      ensures forall k :: k in entries.entries ==> entries.entries[k] == old(entries.entries)[k]
    {
      var keys := entries.keys;
      ghost var before := entries.entries;
      ghost var kept: seq<string> := [];
      var i := 0;
      while i < |keys|
        invariant 0 <= i <= |keys|
        invariant forall k :: k in keys ==> k in before
        invariant entries.Valid()
        invariant entries.keys == kept + keys[i..]
        invariant Unowned(kept, keys[i..], before, pluginId) == Unowned([], keys, before, pluginId)
        invariant forall k :: k in entries.entries ==> k in before && entries.entries[k] == before[k]
      {
        UnownedNext(kept, keys, i, before, pluginId);
        if entries.entries[keys[i]].pluginId == pluginId {
          DeleteNext(kept, keys, i);
          entries := entries.Delete(keys[i]);
        } else {
          KeepNext(kept, keys, i);
          kept := kept + [keys[i]];
        }
        i := i + 1;
      }
      UnownedMembers([], keys, before, pluginId);
    }

    /** `get(key)`: the stored item, or null. */
    function Get(key: string): (r: Option<T>)
      reads this
      ensures r.Some? <==> key in entries.entries
      ensures r.Some? ==> r.value == entries.entries[key].item
    {
      if key in entries.entries then Some(entries.entries[key].item) else None
    }

    /** `list()`: one item per registered key, in registration order. */
    function List(): (items: seq<T>)
      reads this
      requires Valid()
      ensures |items| == |entries.keys|
      ensures forall i :: 0 <= i < |items| ==> Get(entries.keys[i]) == Some(items[i])
    {
      Items(entries.Values())
    }
  }

  function Items<T>(owned: seq<Owned<T>>): (items: seq<T>)
    ensures |items| == |owned|
    ensures forall i :: 0 <= i < |owned| ==> items[i] == owned[i].item
  {
    if owned == [] then [] else [owned[0].item] + Items(owned[1..])
  }

  /** One step of the walk, at the `i`-th key. */
  lemma UnownedNext<T>(kept: seq<string>, keys: seq<string>, i: nat, entries: map<string, Owned<T>>, pluginId: string)
    requires i < |keys| && forall k :: k in keys ==> k in entries
    ensures entries[keys[i]].pluginId == pluginId ==>
      Unowned(kept, keys[i..], entries, pluginId) == Unowned(kept, keys[i + 1..], entries, pluginId)
    ensures entries[keys[i]].pluginId != pluginId ==>
      Unowned(kept, keys[i..], entries, pluginId) == Unowned(kept + [keys[i]], keys[i + 1..], entries, pluginId)
  {
    assert keys[i..][0] == keys[i] && keys[i..][1..] == keys[i + 1..];
  }

  /** Keeping the next key of the walk moves it from the remaining keys to the kept ones. */
  lemma KeepNext(kept: seq<string>, keys: seq<string>, i: nat)
    requires i < |keys|
    ensures (kept + [keys[i]]) + keys[i + 1..] == kept + keys[i..]
  {
    assert keys[i..] == [keys[i]] + keys[i + 1..];
  }

  /** Deleting the next key of the walk from `kept + keys[i..]` leaves `kept + keys[i + 1..]`. */
  lemma DeleteNext(kept: seq<string>, keys: seq<string>, i: nat)
    requires i < |keys| && JsMap.Distinct(kept + keys[i..])
    ensures JsMap.Without(kept + keys[i..], keys[i]) == kept + keys[i + 1..]
  {
    var rest := keys[i..];
    assert rest[0] == keys[i] && (kept + rest)[|kept|] == keys[i];
    assert keys[i] !in kept by {
      forall j | 0 <= j < |kept| ensures kept[j] != keys[i] {
        assert (kept + rest)[j] == kept[j];
      }
    }
    assert JsMap.Distinct(rest) by {
      forall a, b | 0 <= a < b < |rest| ensures rest[a] != rest[b] {
        assert (kept + rest)[|kept| + a] == rest[a] && (kept + rest)[|kept| + b] == rest[b];
      }
    }
    JsMap.WithoutAppend(kept, rest, keys[i]);
    JsMap.WithoutAbsent(kept, keys[i]);
    JsMap.WithoutHead(rest);
    assert rest[1..] == keys[i + 1..];
  }
}
