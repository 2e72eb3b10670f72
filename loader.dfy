/**
 * The program loader (`jFluidic.ProgramLoader.load`): it assembles a program's
 * source from the precision header, the texts of the named utility scripts in
 * order and the text of the fragment shader, then scans that source for its
 * uniform declarations. The page's script elements are given as a map from
 * element id to inner text.
 */
module ProgramLoader {
  import opened Wrappers
  import opened Uniforms
  import opened Programs

  /** The header every program source starts with. */
  const Precision: string := "precision mediump float;"

  /** The script elements of the page: id to inner text. */
  type Page = map<string, string>

  /** Reading `innerText` of the missing element `id` throws a `TypeError`. */
  datatype LoadError = MissingElement(id: string)

  function UtilId(name: string): string {
    name + "-util"
  }

  function FragmentId(name: string): string {
    name + "-fs"
  }

  /**
   * The texts of the first `i` utility scripts, concatenated in order, or the
   * error of the first of them that is missing from the page.
   */
  function UtilTexts(page: Page, utils: seq<string>, i: nat): Result<string, LoadError>
    requires i <= |utils|
  {
    if i == 0 then Ok("")
    else match UtilTexts(page, utils, i - 1)
      case Err(e) => Err(e)
      case Ok(t) =>
        if UtilId(utils[i - 1]) in page then Ok(t + page[UtilId(utils[i - 1])])
        else Err(MissingElement(UtilId(utils[i - 1])))
  }

  /** `if (!utilScripts) utilScripts = []`: an absent list means no utilities. */
  function UtilList(utilScripts: Option<seq<string>>): seq<string> {
    if utilScripts.None? then [] else utilScripts.value
  }

  /** The program `load` returns, or the element whose absence makes it throw. */
  function LoadResult(page: Page, fragmentName: string, utilScripts: Option<seq<string>>): Result<Program, LoadError> {
    var utils := UtilList(utilScripts);
    match UtilTexts(page, utils, |utils|)
    case Err(e) => Err(e)
    case Ok(t) =>
      if FragmentId(fragmentName) !in page then Err(MissingElement(FragmentId(fragmentName)))
      else
        var source := Precision + t + page[FragmentId(fragmentName)];
        Ok(Program(source, Params(source)))
  }

  /** `load(fragmentName, utilScripts)`. */
  method Load(page: Page, fragmentName: string, utilScripts: Option<seq<string>>) returns (r: Result<Program, LoadError>)
    ensures r == LoadResult(page, fragmentName, utilScripts)
  {
    var utils := if utilScripts.None? then [] else utilScripts.value;
    var programSource := Precision;
    ghost var texts := "";
    for i := 0 to |utils|
      invariant UtilTexts(page, utils, i) == Ok(texts)
      invariant programSource == Precision + texts
    {
      var id := utils[i] + "-util";
      if id !in page {
        UtilTextsStops(page, utils, i + 1, |utils|);
        return Err(MissingElement(id));
      }
      texts := texts + page[id];
      programSource := programSource + page[id];
    }
    var id := fragmentName + "-fs";
    if id !in page {
      return Err(MissingElement(id));
    }
    programSource := programSource + page[id];
    r := Ok(Program(programSource, Params(programSource)));
  }

  /** Once a utility script is missing, the load fails on that one, whatever follows. */
  lemma {:induction false} UtilTextsStops(page: Page, utils: seq<string>, i: nat, j: nat)
    requires 0 < i <= j <= |utils| && UtilTexts(page, utils, i).Err?
    ensures UtilTexts(page, utils, j) == UtilTexts(page, utils, i)
    decreases j
  {
    if i < j {
      UtilTextsStops(page, utils, i, j - 1);
    }
  }

  /**
   * The utility texts are found exactly when every named script is on the
   * page; otherwise the load fails on the first that is not.
   */
  lemma {:induction false} UtilTextsFound(page: Page, utils: seq<string>, i: nat)
    requires i <= |utils|
    ensures UtilTexts(page, utils, i).Ok? <==> forall k :: 0 <= k < i ==> UtilId(utils[k]) in page
    ensures UtilTexts(page, utils, i).Err? ==>
      exists k :: 0 <= k < i && UtilTexts(page, utils, i).error == MissingElement(UtilId(utils[k]))
        && UtilId(utils[k]) !in page && forall j :: 0 <= j < k ==> UtilId(utils[j]) in page
    decreases i
  {
    if i > 0 {
      UtilTextsFound(page, utils, i - 1);
    }
  }

  /**
   * `load` succeeds exactly when every utility script and the fragment shader
   * are on the page; the source is the header, the utility texts and the
   * fragment text, and the parameters are the declarations found in it.
   * Otherwise it fails on the first missing element, utilities before the fragment.
   */
  lemma LoadFound(page: Page, fragmentName: string, utilScripts: Option<seq<string>>)
    ensures var utils := UtilList(utilScripts);
      LoadResult(page, fragmentName, utilScripts).Ok? <==>
        (forall k :: 0 <= k < |utils| ==> UtilId(utils[k]) in page) && FragmentId(fragmentName) in page
    ensures var utils := UtilList(utilScripts);
      LoadResult(page, fragmentName, utilScripts).Ok? ==>
        UtilTexts(page, utils, |utils|).Ok? &&
        LoadResult(page, fragmentName, utilScripts).value.source
          == Precision + UtilTexts(page, utils, |utils|).value + page[FragmentId(fragmentName)] &&
        LoadResult(page, fragmentName, utilScripts).value.params == Params(LoadResult(page, fragmentName, utilScripts).value.source)
    ensures var utils := UtilList(utilScripts);
      LoadResult(page, fragmentName, utilScripts).Err? ==>
        (exists k :: 0 <= k < |utils| && LoadResult(page, fragmentName, utilScripts).error == MissingElement(UtilId(utils[k]))
          && UtilId(utils[k]) !in page && forall j :: 0 <= j < k ==> UtilId(utils[j]) in page)
        || (LoadResult(page, fragmentName, utilScripts).error == MissingElement(FragmentId(fragmentName))
          && FragmentId(fragmentName) !in page && forall j :: 0 <= j < |utils| ==> UtilId(utils[j]) in page)
  {
    var utils := UtilList(utilScripts);
    UtilTextsFound(page, utils, |utils|);
  }

  /** No position of `s` starts the keyword. */
  predicate NoKeyword(s: string) {
    forall p :: 0 <= p <= |s| ==> !KeywordAt(s, p)
  }

  lemma {:induction false} ScanNothing(s: string, i: nat)
    requires NoKeyword(s) && i <= |s|
    ensures Scan(TableOf(s), i) == []
    decreases |s| - i
  {
    if i < |s| {
      assert TableOf(s)[i] == MatchAt(s, i) == None;
      ScanNothing(s, i + 1);
    }
  }

  /** A text in which the keyword never occurs declares nothing. */
  lemma NothingDeclared(s: string)
    requires NoKeyword(s)
    ensures Matches(s) == [] && Params(s) == map[]
  {
    ScanNothing(s, 0);
  }

  /** The header holds no `uniform`: the only `u` is followed by `m`. */
  lemma PrecisionHasNoKeyword()
    ensures NoKeyword(Precision)
  {
    forall p | 0 <= p <= |Precision| ensures !KeywordAt(Precision, p) {
      if p + |Keyword| <= |Precision| && FoldsTo(Precision[p], 'u') {
        assert p == 14;
      }
    }
  }

  /** The header declares nothing and hides nothing: what follows it declares the parameters. */
  lemma PrecisionDeclaresNothing(rest: string)
    ensures Params(Precision + rest) == Params(rest)
  {
    PrecisionHasNoKeyword();
    NothingDeclared(Precision);
    ParamsAppend(Precision, rest);
  }

  /** Folding in the same matches keeps two dictionaries that agree on `name` in agreement on it. */
  lemma {:induction false} CollectKeepsAgreement(s: string, ms: seq<Match>, acc: map<string, string>, acc': map<string, string>, name: string)
    requires forall m | m in ms :: Spans(m, |s|)
    requires (name in acc <==> name in acc') && (name in acc ==> acc[name] == acc'[name])
    ensures name in Collect(s, ms, acc) <==> name in Collect(s, ms, acc')
    ensures name in Collect(s, ms, acc) ==> Collect(s, ms, acc)[name] == Collect(s, ms, acc')[name]
    decreases |ms|
  {
    if ms != [] {
      assert forall m | m in ms[1..] :: m in ms;
      var m := ms[0];
      CollectKeepsAgreement(s, ms[1..], acc[Name(s, m) := DeclaredType(s, m)], acc'[Name(s, m) := DeclaredType(s, m)], name);
    }
  }

  /** A name the matches declare gets the type they give it, whatever the dictionary held before. */
  lemma {:induction false} CollectOverrides(s: string, ms: seq<Match>, acc: map<string, string>, name: string)
    requires forall m | m in ms :: Spans(m, |s|)
    requires name in Collect(s, ms, map[])
    ensures name in Collect(s, ms, acc) && Collect(s, ms, acc)[name] == Collect(s, ms, map[])[name]
    decreases |ms|
  {
    assert ms != [];
    assert forall m | m in ms[1..] :: m in ms;
    var m := ms[0];
    var entry := map[Name(s, m) := DeclaredType(s, m)];
    if Name(s, m) == name {
      CollectKeepsAgreement(s, ms[1..], acc[name := DeclaredType(s, m)], entry, name);
    } else {
      CollectKeepsAgreement(s, ms[1..], entry, map[], name);
      CollectOverrides(s, ms[1..], acc[Name(s, m) := DeclaredType(s, m)], name);
      CollectOverrides(s, ms[1..], entry, name);
    }
  }

  /**
   * When the text before the fragment ends in a delimiter (no utilities, or
   * the last one ends in one), every parameter the fragment declares has the
   * type the fragment gives it, overriding a utility's declaration of the name.
   */
  lemma FragmentOverrides(page: Page, fragmentName: string, utilScripts: Option<seq<string>>, name: string)
    requires LoadResult(page, fragmentName, utilScripts).Ok?
    requires FragmentId(fragmentName) in page && name in Params(page[FragmentId(fragmentName)])
    requires var utils := UtilList(utilScripts);
      UtilTexts(page, utils, |utils|).Ok? && EndsWithDelimiter(Precision + UtilTexts(page, utils, |utils|).value)
    ensures name in LoadResult(page, fragmentName, utilScripts).value.params
    ensures LoadResult(page, fragmentName, utilScripts).value.params[name] == Params(page[FragmentId(fragmentName)])[name]
  {
    var utils := UtilList(utilScripts);
    var head := Precision + UtilTexts(page, utils, |utils|).value;
    var fragment := page[FragmentId(fragmentName)];
    ParamsAppend(head, fragment);
    CollectOverrides(fragment, Matches(fragment), Params(head), name);
  }
}
