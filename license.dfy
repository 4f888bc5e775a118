/** The license plugin: pick licenses from the compiled-in table, by id or
    through the interactive picker, and write each to its own `LICENSE-<id>`. */
module License {
  import opened Wrappers
  import opened Text
  import opened Catalog
  import opened Files

  /** `cache::get`: the compiled-in license table, stored on first use and
      handed out on every call. `texts` is the table (its contents are not
      modelled), `value` the stored copy, `initialised` whether the one-time
      initialisation has run. */
  class TableCache {
    const texts: seq<Item>
    var value: seq<Item>
    var initialised: bool

    ghost predicate Valid()
      reads this
    {
      initialised ==> value == texts
    }

    constructor (texts: seq<Item>)
      ensures Valid() && this.texts == texts
      ensures value == [] && !initialised
    {
      this.texts := texts;
      value := [];
      initialised := false;
    }

    /** Every call, the first included, returns the table itself. */
    method Get() returns (r: seq<Item>)
      requires Valid()
      modifies this`value, this`initialised
      ensures Valid() && initialised
      ensures r == texts && value == texts
    {
      if !initialised {
        value := texts;
        initialised := true;
      }
      r := value;
    }
  }

  /** `License::get`: the ids of the table, in table order. */
  function Ids(table: seq<Item>): (r: seq<string>)
    ensures |r| == |table|
    ensures forall k :: 0 <= k < |table| ==> r[k] == table[k].name
  {
    Names(table)
  }

  /** Every id `License::get` lists is found by `exec`'s lookup, at the first
      entry with that id. */
  lemma ListedIdsAreFound(table: seq<Item>, id: string)
    requires id in Ids(table)
    ensures FirstNamed(table, id).Some? && table[FirstNamed(table, id).value].name == id
  {
    ListedNamesAreFound(table, id);
  }

  /** `exec` with ids: one `(id, text)` pair per requested id, in the order
      requested, the text taken from the first table entry with that id.
      Every id must be in the table (the command line only admits those). */
  function Resolve(table: seq<Item>, names: seq<string>): (r: seq<(string, string)>)
    requires forall k :: 0 <= k < |names| ==> names[k] in Ids(table)
    ensures |r| == |names|
    ensures forall k :: 0 <= k < |names| ==>
      FirstNamed(table, names[k]).Some? &&
      r[k] == (names[k], table[FirstNamed(table, names[k]).value].contents)
  {
    if names == [] then []
    else
      ListedIdsAreFound(table, names[0]);
      [(names[0], table[FirstNamed(table, names[0]).value].contents)] + Resolve(table, names[1..])
  }

  /** `exec` after a pick: each chosen item as `(text(), output())`. */
  function Pairs(items: seq<Item>): (r: seq<(string, string)>)
    ensures |r| == |items|
    ensures forall k :: 0 <= k < |items| ==> r[k] == (items[k].name, items[k].contents)
  {
    if items == [] then [] else [(items[0].name, items[0].contents)] + Pairs(items[1..])
  }

  function FileName(id: string): string {
    "LICENSE-" + id
  }

  /** The write-helper call for one `(id, text)` pair: the file `LICENSE-<id>`
      opened with write and create only, the text's bytes, `overwrite` as given. */
  function LicenseCall(item: (string, string), overwrite: bool): WriteCall {
    WriteCall(OpenOptions(write := true, create := true, truncate := false, append := false),
              Path([FileName(item.0)]), Encode(item.1), overwrite)
  }

  /** What the write helper answered to call `i` of `calls`. */
  function Answer(helper: WriteHelper, calls: seq<WriteCall>, i: nat): Result<bool>
    requires i < |calls|
  {
    helper(calls[..i], calls[i])
  }

  /** `calls` are the first calls of the plan for `data`, in order. */
  ghost predicate Planned(data: seq<(string, string)>, overwrite: bool, calls: seq<WriteCall>) {
    && |calls| <= |data|
    && forall i :: 0 <= i < |calls| ==> calls[i] == LicenseCall(data[i], overwrite)
  }

  /** The first `n` calls succeeded. */
  ghost predicate Succeeded(helper: WriteHelper, calls: seq<WriteCall>, n: nat)
    requires n <= |calls|
  {
    forall i :: 0 <= i < n ==> Answer(helper, calls, i).Ok?
  }

  /** The outcome `License::write` promises for `data`: the calls follow the
      data in order, each for its own `LICENSE-<id>`; they stop at the first
      failing call, whose error is the result; when all succeed the result is
      Ok and the advisory is shown exactly when the LAST write reported a
      change (earlier answers are overwritten, not combined). */
  ghost predicate Wrote(helper: WriteHelper, data: seq<(string, string)>, overwrite: bool,
                        r: Result<()>, calls: seq<WriteCall>, advisory: bool)
  {
    && Planned(data, overwrite, calls)
    && if r.Ok? then
         && |calls| == |data|
         && Succeeded(helper, calls, |calls|)
         && advisory == (|data| > 0 && Answer(helper, calls, |data| - 1) == Ok(true))
       else
         && |calls| > 0
         && Succeeded(helper, calls, |calls| - 1)
         && Answer(helper, calls, |calls| - 1) == Err(r.error)
         && !advisory
  }

  /** A run that starts with `calls` got the same answers to them. */
  lemma PrefixAnswers(helper: WriteHelper, calls: seq<WriteCall>, more: seq<WriteCall>, j: nat)
    requires j < |calls| <= |more| && calls == more[..|calls|]
    ensures Answer(helper, calls, j) == Answer(helper, more, j)
  {
    assert calls[..j] == more[..j];
  }

  /** Two outcomes `Wrote` admits make the same calls. */
  lemma SameCalls(helper: WriteHelper, data: seq<(string, string)>, overwrite: bool,
                  r: Result<()>, calls: seq<WriteCall>, advisory: bool,
                  r': Result<()>, calls': seq<WriteCall>, advisory': bool)
    requires Wrote(helper, data, overwrite, r, calls, advisory)
    requires Wrote(helper, data, overwrite, r', calls', advisory')
    requires |calls| <= |calls'|
    ensures calls == calls'
  {
    assert calls == calls'[..|calls|];
    if |calls| < |calls'| {
      PrefixAnswers(helper, calls, calls', |calls| - 1);
      assert false;
    }
  }

  /** The promised outcome is a single one: `Wrote` fixes the result, the
      calls made and the advisory. */
  lemma WroteIsDeterministic(helper: WriteHelper, data: seq<(string, string)>, overwrite: bool,
                             r: Result<()>, calls: seq<WriteCall>, advisory: bool,
                             r': Result<()>, calls': seq<WriteCall>, advisory': bool)
    requires Wrote(helper, data, overwrite, r, calls, advisory)
    requires Wrote(helper, data, overwrite, r', calls', advisory')
    ensures r == r' && calls == calls' && advisory == advisory'
  {
    if |calls| <= |calls'| {
      SameCalls(helper, data, overwrite, r, calls, advisory, r', calls', advisory');
    } else {
      SameCalls(helper, data, overwrite, r', calls', advisory', r, calls, advisory);
    }
    if |calls| > 0 {
      var last := Answer(helper, calls, |calls| - 1);
      assert r.Ok? ==> last.Ok?;
      assert r'.Ok? ==> last.Ok?;
    }
    if r.Ok? && r'.Ok? {
      assert r.value == () == r'.value;
    }
  }

  /** Only the last write decides the advisory: when the first of two licenses
      is created but the second reports no change, the run succeeds and no
      advisory is printed. */
  lemma EarlierChangeNotReported(helper: WriteHelper, data: seq<(string, string)>, overwrite: bool,
                                 r: Result<()>, calls: seq<WriteCall>, advisory: bool)
    requires |data| == 2
    requires helper([], LicenseCall(data[0], overwrite)) == Ok(true)
    requires helper([LicenseCall(data[0], overwrite)], LicenseCall(data[1], overwrite)) == Ok(false)
    requires Wrote(helper, data, overwrite, r, calls, advisory)
    ensures r.Ok? && calls == [LicenseCall(data[0], overwrite), LicenseCall(data[1], overwrite)]
    ensures !advisory
  {
    assert |calls| > 0 ==> calls[..0] == [];
    assert |calls| > 1 ==> calls[..1] == [calls[0]];
  }

  /** Appending a call leaves the answers to the earlier ones as they were. */
  lemma AnswersKept(helper: WriteHelper, calls: seq<WriteCall>, call: WriteCall)
    ensures forall i :: 0 <= i < |calls| ==> Answer(helper, calls + [call], i) == Answer(helper, calls, i)
    ensures Answer(helper, calls + [call], |calls|) == helper(calls, call)
  {
    assert (calls + [call])[..|calls|] == calls;
    forall i | 0 <= i < |calls| ensures (calls + [call])[..i] == calls[..i] {
    }
  }

  /** `License::write`: the `try_fold` over the pairs, threading `changed`;
      `advisory` is whether the note about placeholders is printed. */
  method Write(helper: WriteHelper, data: seq<(string, string)>, overwrite: bool)
    returns (r: Result<()>, calls: seq<WriteCall>, advisory: bool)
    ensures Wrote(helper, data, overwrite, r, calls, advisory)
  {
    var state := false;
    calls := [];
    var i := 0;
    while i < |data|
      invariant i == |calls| && Planned(data, overwrite, calls)
      invariant Succeeded(helper, calls, i)
      invariant state == (i > 0 && Answer(helper, calls, i - 1) == Ok(true))
    {
      var call := LicenseCall(data[i], overwrite);
      var answer := helper(calls, call);
      AnswersKept(helper, calls, call);
      calls := calls + [call];
      if answer.Err? {
        return Err(answer.error), calls, false;
      }
      state := answer.value;
      i := i + 1;
    }
    advisory := state;
    r := Ok(());
  }

  /** `License::exec`: with no ids, the whole table goes to the picker and the
      chosen items are written; otherwise the requested ids are looked up and
      written in the order given. */
  method Exec(table: seq<Item>, names: seq<string>, overwrite: bool,
              pick: Picker, helper: WriteHelper)
    returns (r: Result<()>, calls: seq<WriteCall>, advisory: bool)
    requires forall k :: 0 <= k < |names| ==> names[k] in Ids(table)
    ensures names == [] && pick(table, true).Err? ==>
      r == Err(pick(table, true).error) && calls == [] && !advisory
    ensures names == [] && pick(table, true).Ok? ==>
      Wrote(helper, Pairs(pick(table, true).value), overwrite, r, calls, advisory)
    ensures names != [] ==> Wrote(helper, Resolve(table, names), overwrite, r, calls, advisory)
  {
    if names == [] {
      var selection := pick(table, true);
      if selection.Err? {
        return Err(selection.error), [], false;
      }
      r, calls, advisory := Write(helper, Pairs(selection.value), overwrite);
    } else {
      r, calls, advisory := Write(helper, Resolve(table, names), overwrite);
    }
  }
}
