/**
 * Field selection of the MySQL model generator: which table fields become
 * insert columns, and which fields get a find-one-by-field method. Name
 * conversion (`ToCamel`, `UnTitle`) and template execution are function
 * arguments; the template's data is a record of the values handed to it.
 */
module MysqlGen {
  import opened Wrappers

  datatype Field = Field(name: string, dataType: string, isPrimaryKey: bool, isUniqueKey: bool)

  datatype PrimaryKey = PrimaryKey(name: string, autoIncrement: bool)

  datatype CacheKey = CacheKey(keyName: string, keyExpression: string, left: string)

  datatype Table = Table(name: string, fields: seq<Field>, primaryKey: PrimaryKey, cacheKeys: map<string, CacheKey>)

  /** The string helpers the generator calls. */
  datatype Naming = Naming(toCamel: string -> string, unTitle: string -> string)

  /** Go's `strings.Join`. */
  function Join(parts: seq<string>, sep: string): string
    decreases |parts|
  {
    if parts == [] then ""
    else if |parts| == 1 then parts[0]
    else parts[0] + sep + Join(parts[1..], sep)
  }

  // ---------------------------------------------------------------- insert

  /** Whether `genInsert` keeps a field as an insert column. */
  predicate IsInsertColumn(t: Table, n: Naming, f: Field) {
    var camel := n.toCamel(f.name);
    camel != "CreatedAt" && camel != "UpdatedAt" && !(f.isPrimaryKey && t.primaryKey.autoIncrement)
  }

  /** The fields among `fields` that are insert columns, in field order. */
  function InsertColumns(t: Table, n: Naming, fields: seq<Field>): seq<Field>
    decreases |fields|
  {
    if fields == [] then []
    else
      var last := fields[|fields| - 1];
      InsertColumns(t, n, fields[..|fields| - 1]) + (if IsInsertColumn(t, n, last) then [last] else [])
  }

  /** A field is an insert column exactly when it is a field of the table that the filters keep. */
  lemma {:induction false} InsertColumnsMembership(t: Table, n: Naming, fields: seq<Field>, f: Field)
    ensures f in InsertColumns(t, n, fields) <==> f in fields && IsInsertColumn(t, n, f)
  {
    if fields != [] {
      var init := fields[..|fields| - 1];
      InsertColumnsMembership(t, n, init, f);
      assert fields == init + [fields[|fields| - 1]];
    }
  }

  /** Timestamp fields are never insert columns; the primary key is one exactly when it is not auto-increment. */
  lemma InsertColumnsExclusions(t: Table, n: Naming, f: Field)
    requires f in t.fields
    ensures n.toCamel(f.name) == "CreatedAt" || n.toCamel(f.name) == "UpdatedAt" ==> f !in InsertColumns(t, n, t.fields)
    ensures f.isPrimaryKey && n.toCamel(f.name) != "CreatedAt" && n.toCamel(f.name) != "UpdatedAt" ==>
      (f in InsertColumns(t, n, t.fields) <==> !t.primaryKey.autoIncrement)
  {
    InsertColumnsMembership(t, n, t.fields, f);
  }

  /** The data the insert template gets. */
  datatype InsertData = InsertData(withCache: bool, upperTable: string, lowerTable: string, args: string, values: string)

  /**
   * The column lists `genInsert` builds: one `?` and one `data.<Camel>` per
   * insert column, in field order.
   */
  method InsertArgs(t: Table, n: Naming) returns (args: seq<string>, values: seq<string>)
    ensures |args| == |values| == |InsertColumns(t, n, t.fields)|
    ensures forall j :: 0 <= j < |args| ==> args[j] == "?"
    ensures forall j :: 0 <= j < |values| ==>
      values[j] == "data." + n.toCamel(InsertColumns(t, n, t.fields)[j].name)
  {
    args, values := [], [];
    var i := 0;
    while i < |t.fields|
      invariant 0 <= i <= |t.fields|
      invariant |args| == |values| == |InsertColumns(t, n, t.fields[..i])|
      invariant forall j :: 0 <= j < |args| ==> args[j] == "?"
      invariant forall j :: 0 <= j < |values| ==>
        values[j] == "data." + n.toCamel(InsertColumns(t, n, t.fields[..i])[j].name)
    {
      var field := t.fields[i];
      assert t.fields[..i + 1][..i] == t.fields[..i];
      i := i + 1;
      var camelField := n.toCamel(field.name);
      if camelField == "CreatedAt" || camelField == "UpdatedAt" {
        continue;
      }
      if field.isPrimaryKey && t.primaryKey.autoIncrement {
        continue;
      }
      args := args + ["?"];
      values := values + ["data." + camelField];
    }
    assert t.fields[..i] == t.fields;
  }

  /** The insert template's data, in terms of the insert columns. */
  function InsertDataFor(t: Table, withCache: bool, n: Naming): (r: InsertData)
    ensures r.withCache == withCache && r.upperTable == n.toCamel(t.name) && r.lowerTable == n.unTitle(r.upperTable)
    ensures InsertColumns(t, n, t.fields) == [] ==> r.args == "" && r.values == ""
  {
    var cols := InsertColumns(t, n, t.fields);
    var upperTable := n.toCamel(t.name);
    InsertData(withCache, upperTable, n.unTitle(upperTable),
               Join(seq(|cols|, _ => "?"), ", "),
               Join(seq(|cols|, j requires 0 <= j < |cols| => "data." + n.toCamel(cols[j].name)), ", "))
  }

  /** `genInsert`: the rendered insert template, or `("", err)` when rendering fails. */
  method GenInsert<E>(t: Table, withCache: bool, n: Naming, execute: InsertData -> Result<string, E>)
    returns (code: string, err: Option<E>)
    ensures execute(InsertDataFor(t, withCache, n)).Success? ==>
      code == execute(InsertDataFor(t, withCache, n)).value && err == None
    ensures execute(InsertDataFor(t, withCache, n)).Failure? ==>
      code == "" && err == Some(execute(InsertDataFor(t, withCache, n)).error)
  {
    var args, values := InsertArgs(t, n);
    var cols := InsertColumns(t, n, t.fields);
    assert args == seq(|cols|, _ => "?");
    assert values == seq(|cols|, j requires 0 <= j < |cols| => "data." + n.toCamel(cols[j].name));
    var upperTable := n.toCamel(t.name);
    var output := execute(InsertData(withCache, upperTable, n.unTitle(upperTable), Join(args, ", "), Join(values, ", ")));
    if output.Failure? {
      return "", Some(output.error);
    }
    return output.value, None;
  }

  // ------------------------------------------------------- find one by field

  /** Whether `genFindOneByField` writes a method for a field. */
  predicate HasFinder(f: Field) {
    !f.isPrimaryKey && f.isUniqueKey
  }

  /** The fields that get a finder, in field order. */
  function FinderFields(fields: seq<Field>): seq<Field>
    decreases |fields|
  {
    if fields == [] then []
    else
      var last := fields[|fields| - 1];
      FinderFields(fields[..|fields| - 1]) + (if HasFinder(last) then [last] else [])
  }

  /** Exactly the unique, non-primary fields get a finder. */
  lemma {:induction false} FinderFieldsMembership(fields: seq<Field>, f: Field)
    ensures f in FinderFields(fields) <==> f in fields && !f.isPrimaryKey && f.isUniqueKey
  {
    if fields != [] {
      var init := fields[..|fields| - 1];
      FinderFieldsMembership(init, f);
      assert fields == init + [fields[|fields| - 1]];
    }
  }

  /** The data the find-one-by-field template gets for one field. */
  datatype FinderData = FinderData(
    upperTable: string, upperField: string, params: string, withCache: bool,
    cacheKeyName: string, cacheKeyExpression: string, primaryKeyLeft: string,
    lowerTable: string, lowerField: string, upperStartCamelPrimaryKey: string,
    originalField: string, originalPrimaryField: string)

  /** A Go map lookup: the zero value for a missing key. */
  function CacheKeyOf(t: Table, name: string): (k: CacheKey)
    ensures name in t.cacheKeys ==> k == t.cacheKeys[name]
    ensures name !in t.cacheKeys ==> k.keyName == "" && k.keyExpression == "" && k.left == ""
  {
    if name in t.cacheKeys then t.cacheKeys[name] else CacheKey("", "", "")
  }

  /**
   * The template map of one finder. Names derive from the table and field
   * names; cache-key entries come from the table's cache keys, with empty
   * strings for a name that has none.
   */
  function FinderDataFor(t: Table, withCache: bool, n: Naming, f: Field): (d: FinderData)
    ensures d.upperTable == n.toCamel(t.name) && d.lowerTable == n.unTitle(d.upperTable)
    ensures d.upperField == n.toCamel(f.name) && d.lowerField == n.unTitle(d.upperField)
    ensures d.params == d.lowerField + " " + f.dataType && d.withCache == withCache
    ensures d.cacheKeyName == CacheKeyOf(t, f.name).keyName && d.cacheKeyExpression == CacheKeyOf(t, f.name).keyExpression
    ensures d.primaryKeyLeft == CacheKeyOf(t, t.primaryKey.name).left
    ensures d.upperStartCamelPrimaryKey == n.toCamel(t.primaryKey.name)
    ensures d.originalField == f.name && d.originalPrimaryField == t.primaryKey.name
  {
    var upperTable := n.toCamel(t.name);
    var upperField := n.toCamel(f.name);
    FinderData(upperTable, upperField, n.unTitle(upperField) + " " + f.dataType, withCache,
               CacheKeyOf(t, f.name).keyName, CacheKeyOf(t, f.name).keyExpression,
               CacheKeyOf(t, t.primaryKey.name).left, n.unTitle(upperTable), n.unTitle(upperField),
               n.toCamel(t.primaryKey.name), f.name, t.primaryKey.name)
  }

  /** Renders one snippet per field in order, stopping at the first template error. */
  function Snippets<E>(t: Table, withCache: bool, n: Naming, execute: FinderData -> Result<string, E>,
                       fields: seq<Field>): Result<seq<string>, E>
    decreases |fields|
  {
    if fields == [] then Success([])
    else
      match execute(FinderDataFor(t, withCache, n, fields[0]))
      case Failure(e) => Failure(e)
      case Success(s) =>
        match Snippets(t, withCache, n, execute, fields[1..])
        case Failure(e) => Failure(e)
        case Success(rest) => Success([s] + rest)
  }

  /** A successful rendering has one snippet per field, each the template's output for that field. */
  lemma {:induction false} SnippetsSuccess<E>(t: Table, withCache: bool, n: Naming,
                                              execute: FinderData -> Result<string, E>, fields: seq<Field>)
    requires Snippets(t, withCache, n, execute, fields).Success?
    ensures |Snippets(t, withCache, n, execute, fields).value| == |fields|
    ensures forall i :: 0 <= i < |fields| ==>
      execute(FinderDataFor(t, withCache, n, fields[i])) == Success(Snippets(t, withCache, n, execute, fields).value[i])
  {
    if fields != [] {
      SnippetsSuccess(t, withCache, n, execute, fields[1..]);
      var rest := Snippets(t, withCache, n, execute, fields[1..]).value;
      forall i | 0 <= i < |fields|
        ensures execute(FinderDataFor(t, withCache, n, fields[i])) == Success(Snippets(t, withCache, n, execute, fields).value[i])
      {
        if i > 0 {
          assert fields[1..][i - 1] == fields[i];
        }
      }
    }
  }

  /** A failed rendering reports the error of the first field whose template fails. */
  lemma {:induction false} SnippetsFailure<E>(t: Table, withCache: bool, n: Naming,
                                              execute: FinderData -> Result<string, E>, fields: seq<Field>)
    requires Snippets(t, withCache, n, execute, fields).Failure?
    ensures exists i :: (0 <= i < |fields|
      && execute(FinderDataFor(t, withCache, n, fields[i])) == Failure(Snippets(t, withCache, n, execute, fields).error)
      && forall j :: 0 <= j < i ==> execute(FinderDataFor(t, withCache, n, fields[j])).Success?)
  {
    var e := Snippets(t, withCache, n, execute, fields).error;
    if execute(FinderDataFor(t, withCache, n, fields[0])).Success? {
      SnippetsFailure(t, withCache, n, execute, fields[1..]);
      var i :| 0 <= i < |fields[1..]|
        && execute(FinderDataFor(t, withCache, n, fields[1..][i])) == Failure(e)
        && forall j :: 0 <= j < i ==> execute(FinderDataFor(t, withCache, n, fields[1..][j])).Success?;
      assert forall j :: 0 < j <= i ==> fields[j] == fields[1..][j - 1];
      assert 0 <= i + 1 < |fields| && execute(FinderDataFor(t, withCache, n, fields[i + 1])) == Failure(e);
    } else {
      assert execute(FinderDataFor(t, withCache, n, fields[0])) == Failure(e);
    }
  }

  /** Rendering one more field extends a successful rendering, or fails with that field's error. */
  lemma {:induction false} SnippetsSnoc<E>(t: Table, withCache: bool, n: Naming,
                                           execute: FinderData -> Result<string, E>, fields: seq<Field>, f: Field)
    requires Snippets(t, withCache, n, execute, fields).Success?
    ensures execute(FinderDataFor(t, withCache, n, f)).Success? ==>
      Snippets(t, withCache, n, execute, fields + [f])
        == Success(Snippets(t, withCache, n, execute, fields).value + [execute(FinderDataFor(t, withCache, n, f)).value])
    ensures execute(FinderDataFor(t, withCache, n, f)).Failure? ==>
      Snippets(t, withCache, n, execute, fields + [f]) == Failure(execute(FinderDataFor(t, withCache, n, f)).error)
  {
    if fields != [] {
      assert (fields + [f])[0] == fields[0];
      assert (fields + [f])[1..] == fields[1..] + [f];
      SnippetsSnoc(t, withCache, n, execute, fields[1..], f);
      var s := execute(FinderDataFor(t, withCache, n, fields[0])).value;
      var rest := Snippets(t, withCache, n, execute, fields[1..]).value;
      match execute(FinderDataFor(t, withCache, n, f))
      case Failure(_) =>
      case Success(v) => assert [s] + (rest + [v]) == ([s] + rest) + [v];
    } else {
      assert fields + [f] == [f];
      assert [f][1..] == [];
      match execute(FinderDataFor(t, withCache, n, f))
      case Failure(_) =>
      case Success(s) => assert [s] + [] == [] + [s];
    }
  }

  /** Once a rendering has failed, rendering more fields keeps that error. */
  lemma {:induction false} SnippetsFailureSticks<E>(t: Table, withCache: bool, n: Naming,
                                                    execute: FinderData -> Result<string, E>, fields: seq<Field>, more: seq<Field>)
    requires Snippets(t, withCache, n, execute, fields).Failure?
    ensures Snippets(t, withCache, n, execute, fields + more) == Snippets(t, withCache, n, execute, fields)
  {
    assert (fields + more)[0] == fields[0];
    if execute(FinderDataFor(t, withCache, n, fields[0])).Success? {
      assert (fields + more)[1..] == fields[1..] + more;
      SnippetsFailureSticks(t, withCache, n, execute, fields[1..], more);
    }
  }

  lemma {:induction false} FinderFieldsAppend(a: seq<Field>, b: seq<Field>)
    ensures FinderFields(a + b) == FinderFields(a) + FinderFields(b)
    decreases |b|
  {
    if b == [] {
      assert a + b == a;
    } else {
      var init := b[..|b| - 1];
      assert (a + b)[..|a + b| - 1] == a + init;
      FinderFieldsAppend(a, init);
    }
  }

  /** Extending the prefix by one field adds that field's finder, if it has one. */
  lemma FinderStep(fields: seq<Field>, i: nat)
    requires i < |fields|
    ensures FinderFields(fields[..i + 1]) == FinderFields(fields[..i]) + (if HasFinder(fields[i]) then [fields[i]] else [])
  {
    assert fields[..i + 1][..i] == fields[..i];
  }

  /** One loop step of `genFindOneByField` that does not return early keeps the rendering of the prefix. */
  lemma SnippetsStep<E>(t: Table, withCache: bool, n: Naming, execute: FinderData -> Result<string, E>,
                        i: nat, list: seq<string>)
    requires i < |t.fields|
    requires Snippets(t, withCache, n, execute, FinderFields(t.fields[..i])) == Success(list)
    ensures !HasFinder(t.fields[i]) ==>
      Snippets(t, withCache, n, execute, FinderFields(t.fields[..i + 1])) == Success(list)
    ensures HasFinder(t.fields[i]) && execute(FinderDataFor(t, withCache, n, t.fields[i])).Success? ==>
      Snippets(t, withCache, n, execute, FinderFields(t.fields[..i + 1]))
        == Success(list + [execute(FinderDataFor(t, withCache, n, t.fields[i])).value])
  {
    FinderStep(t.fields, i);
    if HasFinder(t.fields[i]) {
      SnippetsSnoc(t, withCache, n, execute, FinderFields(t.fields[..i]), t.fields[i]);
    } else {
      assert FinderFields(t.fields[..i]) + [] == FinderFields(t.fields[..i]);
    }
  }

  /** The early return of `genFindOneByField`: the first failing finder decides the whole rendering. */
  lemma SnippetsExit<E>(t: Table, withCache: bool, n: Naming, execute: FinderData -> Result<string, E>, i: nat)
    requires i < |t.fields| && HasFinder(t.fields[i])
    requires Snippets(t, withCache, n, execute, FinderFields(t.fields[..i])).Success?
    requires execute(FinderDataFor(t, withCache, n, t.fields[i])).Failure?
    ensures Snippets(t, withCache, n, execute, FinderFields(t.fields))
      == Failure(execute(FinderDataFor(t, withCache, n, t.fields[i])).error)
  {
    FinderStep(t.fields, i);
    SnippetsSnoc(t, withCache, n, execute, FinderFields(t.fields[..i]), t.fields[i]);
    assert t.fields == t.fields[..i + 1] + t.fields[i + 1..];
    FinderFieldsAppend(t.fields[..i + 1], t.fields[i + 1..]);
    SnippetsFailureSticks(t, withCache, n, execute, FinderFields(t.fields[..i + 1]), FinderFields(t.fields[i + 1..]));
  }

  /**
   * `genFindOneByField`: the finder snippets of the unique, non-primary
   * fields joined by newlines, or `("", err)` with the first template error.
   */
  method GenFindOneByField<E>(t: Table, withCache: bool, n: Naming, execute: FinderData -> Result<string, E>)
    returns (code: string, err: Option<E>)
    ensures Snippets(t, withCache, n, execute, FinderFields(t.fields)).Success? ==>
      code == Join(Snippets(t, withCache, n, execute, FinderFields(t.fields)).value, "\n") && err == None
    ensures Snippets(t, withCache, n, execute, FinderFields(t.fields)).Failure? ==>
      code == "" && err == Some(Snippets(t, withCache, n, execute, FinderFields(t.fields)).error)
  {
    var list: seq<string> := [];
    var i := 0;
    while i < |t.fields|
      invariant 0 <= i <= |t.fields|
      invariant Snippets(t, withCache, n, execute, FinderFields(t.fields[..i])) == Success(list)
    {
      var field := t.fields[i];
      SnippetsStep(t, withCache, n, execute, i, list);
      if field.isPrimaryKey || !field.isUniqueKey {
        i := i + 1;
        continue;
      }
      var output := execute(FinderDataFor(t, withCache, n, field));
      if output.Failure? {
        SnippetsExit(t, withCache, n, execute, i);
        return "", Some(output.error);
      }
      list := list + [output.value];
      i := i + 1;
    }
    assert t.fields[..i] == t.fields;
    return Join(list, "\n"), None;
  }

  /** With no unique, non-primary field the result is the empty string and no error. */
  lemma NoFinderFields<E>(t: Table, withCache: bool, n: Naming, execute: FinderData -> Result<string, E>)
    requires forall i :: 0 <= i < |t.fields| ==> !HasFinder(t.fields[i])
    ensures FinderFields(t.fields) == []
    ensures Snippets(t, withCache, n, execute, FinderFields(t.fields)) == Success([])
    ensures Join([], "\n") == ""
  {
    NoFinderFieldsEmpty(t.fields);
  }

  lemma {:induction false} NoFinderFieldsEmpty(fields: seq<Field>)
    requires forall i :: 0 <= i < |fields| ==> !HasFinder(fields[i])
    ensures FinderFields(fields) == []
  {
    if fields != [] {
      NoFinderFieldsEmpty(fields[..|fields| - 1]);
    }
  }
}
