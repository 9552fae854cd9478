/**
 * BootstrapPrinter: collects scenario results into a table of contents of
 * (category, results) groups as they are printed, and on Flush writes one
 * HTML page: a navigation list with a PASSED/FAILED status per group, then
 * every group's results in order.
 *
 * The written lines are the `output` field. What the page shows inside a
 * result (NicePrint of the given, when, expect and results sections), the
 * Inflector title of a scenario name and the embedded stylesheet are
 * collaborators this model takes as parameters.
 */
module BootstrapPrinting {
  import opened Wrappers
  import opened Testing

  /** One table-of-contents entry: a category and the results printed under it, in order. */
  datatype Group = Group(category: Category, results: seq<ScenarioResult>)

  /** .NET's message of Last() on an empty list. */
  const NoElementsMessage: string := "Sequence contains no elements"

  predicate AllPassed(results: seq<ScenarioResult>)
  {
    forall i :: 0 <= i < |results| ==> results[i].passed
  }

  /** A group's navigation status: PASSED iff every result passed (an empty group is PASSED). */
  function Status(results: seq<ScenarioResult>): (s: string)
    ensures s == "PASSED" <==> AllPassed(results)
    ensures s == "PASSED" || s == "FAILED"
  {
    if AllPassed(results) then "PASSED" else "FAILED"
  }

  function NavigationLine(g: Group): string
  {
    "<li><a href='#" + g.category.id + "'>" + g.category.name + "</a> (" + Status(g.results) + ")</li>"
  }

  /** One navigation line per group, in table-of-contents order. */
  function NavigationLines(toc: seq<Group>): (lines: seq<string>)
    ensures |lines| == |toc|
    ensures forall i :: 0 <= i < |toc| ==> lines[i] == NavigationLine(toc[i])
  {
    if toc == [] then [] else NavigationLines(toc[..|toc| - 1]) + [NavigationLine(toc[|toc| - 1])]
  }

  /** The lines of each item, one item after the other. */
  function ConcatLines<T>(items: seq<T>, lines: T -> seq<string>): seq<string>
  {
    if items == [] then [] else ConcatLines(items[..|items| - 1], lines) + lines(items[|items| - 1])
  }

  /** The lines of `a + b` are those of `a`, then those of `b`. */
  lemma {:induction false} ConcatLinesAppend<T>(a: seq<T>, b: seq<T>, lines: T -> seq<string>)
    ensures ConcatLines(a + b, lines) == ConcatLines(a, lines) + ConcatLines(b, lines)
    decreases |b|
  {
    if b == [] {
      assert a + b == a;
    } else {
      var front, last := b[..|b| - 1], b[|b| - 1];
      assert (a + b)[..|a + b| - 1] == a + front && (a + b)[|a + b| - 1] == last;
      ConcatLinesAppend(a, front, lines);
    }
  }

  /** The lines of one result: its alert box, its title and status, and its sections. */
  function ResultBlock(r: ScenarioResult, titleize: string -> string, sections: ScenarioResult -> seq<string>)
    : seq<string>
  {
    ["<div class='alert alert-" + (if r.passed then "success" else "danger") + "'>",
     "<details id='{0}'>",
     "<summary>" + titleize(if r.name.Some? then r.name.value else "???") + " - "
       + (if r.passed then "Passed" else "Failed") + "</summary>",
     "<pre>"]
    + sections(r)
    + ["</pre>", "</details>", "</div>"]
  }

  /**
   * WriteResult: a result's block is a success or danger alert by its outcome,
   * titled with its name ("???" when it has none) and its status, and holds its
   * sections, unchanged, inside the `pre` element.
   */
  lemma ResultBlockLayout(r: ScenarioResult, titleize: string -> string, sections: ScenarioResult -> seq<string>)
    ensures var b := ResultBlock(r, titleize, sections);
      && |b| == |sections(r)| + 7
      && b[0] == "<div class='alert alert-" + (if r.passed then "success" else "danger") + "'>"
      && b[1] == "<details id='{0}'>"
      && b[2] == "<summary>" + titleize(if r.name.Some? then r.name.value else "???") + " - "
                 + (if r.passed then "Passed" else "Failed") + "</summary>"
      && b[3] == "<pre>" && b[4..|b| - 3] == sections(r)
      && b[|b| - 3..] == ["</pre>", "</details>", "</div>"]
  {
  }

  /** The blocks of the results, in order. */
  function ResultBlocks(results: seq<ScenarioResult>, titleize: string -> string, sections: ScenarioResult -> seq<string>)
    : seq<string>
  {
    ConcatLines(results, r => ResultBlock(r, titleize, sections))
  }

  function GroupHeader(c: Category): seq<string>
  {
    ["<section id='" + c.id + "'>", "<h1>" + c.name + "</h1>"]
  }

  /** WriteCategoryHeader: a group opens a section under its category's id, headed by the category's name. */
  lemma GroupHeaderLayout(c: Category)
    ensures var h := GroupHeader(c);
      |h| == 2 && h[0] == "<section id='" + c.id + "'>" && h[1] == "<h1>" + c.name + "</h1>"
  {
  }

  const GroupFooter: seq<string> := ["</section>"]

  function GroupLines(g: Group, titleize: string -> string, sections: ScenarioResult -> seq<string>): seq<string>
  {
    GroupHeader(g.category) + ResultBlocks(g.results, titleize, sections) + GroupFooter
  }

  /** WriteResults: every group, in table-of-contents order. */
  function ResultsLines(toc: seq<Group>, titleize: string -> string, sections: ScenarioResult -> seq<string>)
    : seq<string>
  {
    ConcatLines(toc, g => GroupLines(g, titleize, sections))
  }

  /** One more group adds its lines at the end. */
  lemma ResultsLinesSnoc(toc: seq<Group>, g: Group, titleize: string -> string, sections: ScenarioResult -> seq<string>)
    ensures ResultsLines(toc + [g], titleize, sections) == ResultsLines(toc, titleize, sections) + GroupLines(g, titleize, sections)
  {
    assert (toc + [g])[..|toc|] == toc;
  }

  /** Results are written in insertion order: the blocks of `a + b` are those of `a`, then those of `b`. */
  lemma ResultBlocksAppend(a: seq<ScenarioResult>, b: seq<ScenarioResult>,
                           titleize: string -> string, sections: ScenarioResult -> seq<string>)
    ensures ResultBlocks(a + b, titleize, sections) == ResultBlocks(a, titleize, sections) + ResultBlocks(b, titleize, sections)
  {
    ConcatLinesAppend(a, b, r => ResultBlock(r, titleize, sections));
  }

  /** Groups are written in table-of-contents order: the lines of `a + b` are those of `a`, then those of `b`. */
  lemma ResultsLinesAppend(a: seq<Group>, b: seq<Group>,
                           titleize: string -> string, sections: ScenarioResult -> seq<string>)
    ensures ResultsLines(a + b, titleize, sections) == ResultsLines(a, titleize, sections) + ResultsLines(b, titleize, sections)
  {
    ConcatLinesAppend(a, b, g => GroupLines(g, titleize, sections));
  }

  /** Printing a result under the last group adds its block at the end of that group's results. */
  lemma PrintedResultIsWrittenLast(rest: seq<Group>, last: Group, r: ScenarioResult,
                                   titleize: string -> string, sections: ScenarioResult -> seq<string>)
    ensures ResultsLines(rest + [Group(last.category, last.results + [r])], titleize, sections)
         == ResultsLines(rest, titleize, sections) + GroupHeader(last.category)
            + ResultBlocks(last.results, titleize, sections) + ResultBlock(r, titleize, sections) + GroupFooter
  {
    ResultsLinesAppend(rest, [Group(last.category, last.results + [r])], titleize, sections);
    ResultBlocksAppend(last.results, [r], titleize, sections);
    assert ResultsLines([Group(last.category, last.results + [r])], titleize, sections)
        == ResultsLines([], titleize, sections) + GroupLines(Group(last.category, last.results + [r]), titleize, sections);
  }

  /** WriteNavigation: the list of groups with their status, then an empty line. */
  function Navigation(toc: seq<Group>): seq<string>
  {
    ["<nav><ul>"] + NavigationLines(toc) + ["</ul></nav>", ""]
  }

  /** Everything Flush writes before the navigation: the document head with the stylesheet, and the body's opening. */
  function Prologue(stylesheet: string): (p: seq<string>)
    ensures |p| == 6
    ensures p[0] == "<!DOCTYPE html>" && p[1] == "<html>"
    ensures p[2] == "<head><meta charset='UTF-8'><style>" && p[3] == stylesheet && p[4] == "</style></head>"
    ensures p[5] == "<body><section class='container'>"
  {
    ["<!DOCTYPE html>", "<html>", "<head><meta charset='UTF-8'><style>", stylesheet, "</style></head>",
     "<body><section class='container'>"]
  }

  const Epilogue: seq<string> := ["</section></body>", "</html>"]

  class BootstrapPrinter {
    /** Underscore().Titleize() of the Inflector library. */
    const titleize: string -> string
    /** The Given, When, Expect and Results sections of a result, as NicePrint renders them. */
    const sections: ScenarioResult -> seq<string>
    /** The embedded bootstrap.css. */
    const stylesheet: string
    var tableOfContents: seq<Group>
    /** The lines written to the output. */
    var output: seq<string>
    var flushes: nat
    var disposed: bool
    /** How many times the output writer has been disposed. */
    var outputDisposals: nat

    constructor (titleize: string -> string, sections: ScenarioResult -> seq<string>, stylesheet: string)
      ensures this.titleize == titleize && this.sections == sections && this.stylesheet == stylesheet
      ensures tableOfContents == [] && output == [] && flushes == 0 && !disposed && outputDisposals == 0
    {
      this.titleize := titleize;
      this.sections := sections;
      this.stylesheet := stylesheet;
      tableOfContents := [];
      output := [];
      flushes := 0;
      disposed := false;
      outputDisposals := 0;
    }

    /** PrintCategoryHeader: a new, empty group at the end. */
    method PrintCategoryHeader(foundOn: Category)
      modifies this`tableOfContents
      ensures tableOfContents == old(tableOfContents) + [Group(foundOn, [])]
    {
      tableOfContents := tableOfContents + [Group(foundOn, [])];
    }

    /** PrintResult: the result joins the last group; with no group yet, Last() throws. */
    method PrintResult(result: ScenarioResult) returns (r: Result<(), Exception>)
      modifies this`tableOfContents
      ensures old(tableOfContents) == [] ==>
        r == Failure(Exception(InvalidOperationException, NoElementsMessage)) && tableOfContents == []
      ensures old(tableOfContents) != [] ==>
        var n := |old(tableOfContents)|;
        var last := old(tableOfContents)[n - 1];
        && r.Success?
        && tableOfContents == old(tableOfContents)[..n - 1] + [Group(last.category, last.results + [result])]
    {
      if tableOfContents == [] {
        return Failure(Exception(InvalidOperationException, NoElementsMessage));
      }
      var n := |tableOfContents|;
      var last := tableOfContents[n - 1];
      tableOfContents := tableOfContents[..n - 1] + [Group(last.category, last.results + [result])];
      r := Success(());
    }

    /** PrintCategoryFooter does nothing. */
    method PrintCategoryFooter(foundOn: Category)
      ensures tableOfContents == old(tableOfContents) && output == old(output)
    {
    }

    method WriteNavigation()
      modifies this`output
      ensures output == old(output) + Navigation(tableOfContents)
    {
      var lines: seq<string> := [];
      var i := 0;
      while i < |tableOfContents|
        invariant 0 <= i <= |tableOfContents|
        invariant lines == NavigationLines(tableOfContents[..i])
      {
        assert tableOfContents[..i + 1][..i] == tableOfContents[..i];
        lines := lines + [NavigationLine(tableOfContents[i])];
        i := i + 1;
      }
      assert tableOfContents[..i] == tableOfContents;
      output := output + (["<nav><ul>"] + lines + ["</ul></nav>", ""]);
    }

    /** WriteCategoryHeader, WriteResult for each result in order, WriteCategoryFooter. */
    method WriteGroup(group: Group)
      modifies this`output
      ensures output == old(output) + GroupLines(group, titleize, sections)
    {
      var lines := GroupHeader(group.category);
      var j := 0;
      while j < |group.results|
        invariant 0 <= j <= |group.results|
        invariant lines == GroupHeader(group.category) + ResultBlocks(group.results[..j], titleize, sections)
      {
        assert group.results[..j + 1][..j] == group.results[..j];
        lines := lines + ResultBlock(group.results[j], titleize, sections);
        j := j + 1;
      }
      assert group.results[..j] == group.results;
      output := output + (lines + GroupFooter);
    }

    method WriteResults()
      modifies this`output
      ensures output == old(output) + ResultsLines(tableOfContents, titleize, sections)
    {
      var i := 0;
      while i < |tableOfContents|
        invariant 0 <= i <= |tableOfContents|
        invariant output == old(output) + ResultsLines(tableOfContents[..i], titleize, sections)
      {
        var group := tableOfContents[i];
        assert tableOfContents[..i + 1] == tableOfContents[..i] + [group];
        ResultsLinesSnoc(tableOfContents[..i], group, titleize, sections);
        ghost var written := ResultsLines(tableOfContents[..i], titleize, sections);
        WriteGroup(group);
        assert output == old(output) + (written + GroupLines(group, titleize, sections));
        i := i + 1;
      }
      assert tableOfContents[..i] == tableOfContents;
    }

    /** Flush: the whole page, then a flush of the writer. */
    method Flush()
      modifies this`output, this`flushes
      ensures output == old(output) + Prologue(stylesheet) + Navigation(tableOfContents)
                             + ResultsLines(tableOfContents, titleize, sections) + Epilogue
      ensures flushes == old(flushes) + 1
    {
      output := output + Prologue(stylesheet);
      WriteNavigation();
      WriteResults();
      output := output + Epilogue;
      flushes := flushes + 1;
    }

    /** Dispose: the writer is disposed on the first call only. */
    method Dispose()
      modifies this`disposed, this`outputDisposals
      ensures disposed
      ensures outputDisposals == if old(disposed) then old(outputDisposals) else old(outputDisposals) + 1
    {
      if disposed {
        return;
      }
      disposed := true;
      outputDisposals := outputDisposals + 1;
    }
  }

  /** A result before any header is refused; a second Dispose does not dispose the writer again. */
  method RefusedResultAndDoubleDispose(result: ScenarioResult, foundOn: Category)
    returns (refused: Result<(), Exception>, toc: seq<Group>, disposals: nat)
    ensures refused == Failure(Exception(InvalidOperationException, NoElementsMessage))
    ensures toc == [Group(foundOn, [result])]
    ensures disposals == 1
  {
    var printer := new BootstrapPrinter(s => s, r => [], "");
    refused := printer.PrintResult(result);
    printer.PrintCategoryHeader(foundOn);
    var accepted := printer.PrintResult(result);
    assert [Group(foundOn, [])][..0] == [] && [] + [result] == [result];
    printer.PrintCategoryFooter(foundOn);
    toc := printer.tableOfContents;
    printer.Dispose();
    printer.Dispose();
    disposals := printer.outputDisposals;
  }
}
