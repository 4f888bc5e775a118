/** The gitignore plugin: pick templates from the fetched catalog, by exact
    name or through the interactive picker, and write them, one after the
    other, to `.gitignore` in the destination directory. */
module GitIgnore {
  import opened Wrappers
  import opened Text
  import opened Catalog
  import opened Files
  import Fetcher

  /** `GitIgnoreOptions`. */
  datatype Options = Options(append: bool, dest: Path, name: Option<string>, overwrite: bool)

  /** The buffer `write` builds: the bytes of each selected output in turn. */
  function Buffer(outputs: seq<string>): seq<byte> {
    if outputs == [] then [] else Encode(outputs[0]) + Buffer(outputs[1..])
  }

  /** The buffer holds the outputs' text in selection order, nothing
      reordered, dropped or inserted. */
  lemma {:induction false} BufferIsEncodedConcat(outputs: seq<string>)
    ensures Buffer(outputs) == Encode(Concat(outputs))
  {
    if outputs != [] {
      BufferIsEncodedConcat(outputs[1..]);
      EncodeAppend(outputs[0], Concat(outputs[1..]));
    }
  }

  lemma {:induction false} BufferAppend(a: seq<string>, b: seq<string>)
    ensures Buffer(a + b) == Buffer(a) + Buffer(b)
  {
    if a == [] {
      assert a + b == b;
    } else {
      assert (a + b)[1..] == a[1..] + b;
      BufferAppend(a[1..], b);
    }
  }

  /** `GitIgnore::write`: a single call to the write helper for
      `dest/.gitignore`, opened for writing with create set, truncate as
      `overwrite` and append as `append`, carrying the selected outputs'
      bytes in order and forwarding `overwrite`. Whether the helper changed
      the file is dropped; its error is passed on. */
  function Write(opts: Options, outputs: seq<string>, helper: WriteHelper): (w: Written<()>)
    ensures |w.calls| == 1
    ensures w.calls[0].path == opts.dest.Join(".gitignore")
    ensures w.calls[0].options == OpenOptions(write := true, create := true,
                                              truncate := opts.overwrite, append := opts.append)
    ensures w.calls[0].bytes == Encode(Concat(outputs))
    ensures w.calls[0].overwrite == opts.overwrite
    ensures w.result.Ok? <==> helper([], w.calls[0]).Ok?
    ensures w.result.Err? ==> w.result.error == helper([], w.calls[0]).error
  {
    var options := OpenOptions(write := true, create := true, truncate := opts.overwrite, append := opts.append);
    var call := WriteCall(options, opts.dest.Join(".gitignore"), Buffer(outputs), opts.overwrite);
    BufferIsEncodedConcat(outputs);
    match helper([], call)
    case Err(e) => Written(Err(e), [call])
    case Ok(_) => Written(Ok(()), [call])
  }

  const NotFoundHead := "gitignore template for `"
  const NotFoundMiddle := "` not found, available:\n "

  /** The message of the error `exec` reports when no template has the name asked for. */
  function NotFoundMessage(name: string, names: seq<string>): string {
    NotFoundHead + name + NotFoundMiddle + Join(names, ", ")
  }

  /** Where the i-th available name stands in the not-found message. */
  function NamePosition(name: string, names: seq<string>, i: nat): nat
    requires i <= |names|
  {
    |NotFoundHead| + |name| + |NotFoundMiddle| + Offset(names, ", ", i)
  }

  /** The not-found message names the template asked for, then every available
      name in catalog order, each followed by ", " up to the last. */
  lemma NotFoundMessageLists(name: string, names: seq<string>)
    ensures var m := NotFoundMessage(name, names);
      |NotFoundHead| + |name| <= |m| && m[|NotFoundHead|..|NotFoundHead| + |name|] == name
    ensures forall i :: 0 <= i < |names| ==>
      NamePosition(name, names, i) + |names[i]| <= |NotFoundMessage(name, names)| &&
      NotFoundMessage(name, names)[NamePosition(name, names, i)..NamePosition(name, names, i) + |names[i]|] == names[i]
    ensures forall i :: 0 <= i < |names| - 1 ==>
      NamePosition(name, names, i + 1) == NamePosition(name, names, i) + |names[i]| + 2 &&
      NotFoundMessage(name, names)[NamePosition(name, names, i) + |names[i]|..NamePosition(name, names, i + 1)] == ", "
  {
    var m := NotFoundMessage(name, names);
    var prefix := NotFoundHead + name + NotFoundMiddle;
    assert m == prefix + Join(names, ", ");
    assert m[|NotFoundHead|..|NotFoundHead| + |name|] == name;
    forall i | 0 <= i < |names|
      ensures NamePosition(name, names, i) + |names[i]| <= |m|
      ensures m[NamePosition(name, names, i)..NamePosition(name, names, i) + |names[i]|] == names[i]
    {
      JoinAt(names, ", ", i);
      var o := Offset(names, ", ", i);
      SliceAfter(prefix, Join(names, ", "), o, o + |names[i]|);
    }
    forall i | 0 <= i < |names| - 1
      ensures NamePosition(name, names, i + 1) == NamePosition(name, names, i) + |names[i]| + 2
      ensures m[NamePosition(name, names, i) + |names[i]|..NamePosition(name, names, i + 1)] == ", "
    {
      JoinSeparatorAt(names, ", ", i);
      SliceAfter(prefix, Join(names, ", "), Offset(names, ", ", i) + |names[i]|, Offset(names, ", ", i + 1));
    }
  }

  /** `exec` once the catalog has been fetched (or has failed to be): the
      result and the write calls made. */
  function Outcome(opts: Options, catalog: Result<seq<Item>>, pick: Picker, helper: WriteHelper): Written<()> {
    match catalog
    case Err(e) => Written(Err(e), [])
    case Ok(items) =>
      match opts.name
      case Some(name) =>
        (match FirstNamed(items, name)
         case Some(i) => Write(opts, [items[i].contents], helper)
         case None => Written(Err(Message(NotFoundMessage(name, Names(items)))), []))
      case None =>
        (match pick(items, true)
         case Err(e) => Written(Err(e), [])
         case Ok(selected) => Write(opts, Outputs(selected), helper))
  }

  /** A failed fetch writes nothing and ends `exec` with its error. */
  lemma FetchErrorWritesNothing(opts: Options, e: Error, pick: Picker, helper: WriteHelper)
    ensures Outcome(opts, Err(e), pick, helper) == Written(Err(e), [])
  {
  }

  /** With a name that the catalog has, `exec` writes exactly the contents of
      the first template of that name, and nothing else. */
  lemma NamedTemplateIsWritten(opts: Options, items: seq<Item>, pick: Picker, helper: WriteHelper, i: nat)
    requires opts.name.Some? && i < |items| && items[i].name == opts.name.value
    requires forall k :: 0 <= k < i ==> items[k].name != opts.name.value
    ensures var w := Outcome(opts, Ok(items), pick, helper);
      && |w.calls| == 1
      && w.calls[0].path == opts.dest.Join(".gitignore")
      && w.calls[0].bytes == Encode(items[i].contents)
      && (w.result.Ok? <==> helper([], w.calls[0]).Ok?)
  {
    assert Concat([items[i].contents]) == items[i].contents;
  }

  /** With a name that no template has, `exec` writes nothing and fails with
      the not-found message listing every available name in order. */
  lemma UnknownNameListsCatalog(opts: Options, items: seq<Item>, pick: Picker, helper: WriteHelper)
    requires opts.name.Some?
    requires forall k :: 0 <= k < |items| ==> items[k].name != opts.name.value
    ensures Outcome(opts, Ok(items), pick, helper)
      == Written(Err(Message(NotFoundMessage(opts.name.value, Names(items)))), [])
  {
  }

  /** Without a name, `exec` offers the whole catalog to the picker (with
      multi-select) and writes exactly what it returns, in its order. */
  lemma PickedTemplatesAreWritten(opts: Options, items: seq<Item>, pick: Picker, helper: WriteHelper)
    requires opts.name.None?
    ensures var w := Outcome(opts, Ok(items), pick, helper);
      && (pick(items, true).Err? ==> w == Written(Err(pick(items, true).error), []))
      && (pick(items, true).Ok? ==>
            |w.calls| == 1 && w.calls[0].bytes == Encode(Concat(Outputs(pick(items, true).value))))
  {
  }

  /** `GitIgnore::exec`: fetch the catalog, then select and write. */
  method Exec(host: Fetcher.Host, opts: Options, pick: Picker, helper: WriteHelper)
    returns (r: Result<()>, calls: seq<WriteCall>)
    modifies host`cache, host`effects
    ensures var s := Fetcher.Fetch(old(host.cache), host.now, host.remote, host.saveFault);
      && host.cache == s.cache && host.effects == old(host.effects) + s.effects
      && Written(r, calls) == Outcome(opts, s.result, pick, helper)
  {
    var items := host.Get();
    var w := Outcome(opts, items, pick, helper);
    r, calls := w.result, w.calls;
  }
}
