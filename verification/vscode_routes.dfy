/** The `/` page handler's own logic (src/node/routes/vscode.ts): choosing
    the start path from the request, the command line and the last visit,
    what it persists as the last visit, and how it turns the page shell
    into its production form. */
module VscodeRoutes {
  import opened Common
  import opened Ipc
  import opened JsStrings

  /** One start-path candidate: `{ url?: string | string[]; workspace?: boolean }`. */
  datatype Candidate = Candidate(url: QueryValue, workspace: Option<bool>)

  /** `arrayify`: no value gives no element, a list stays itself, a single
      string becomes a one-element list. */
  function Arrayify(v: QueryValue): (r: seq<string>)
    ensures v.Absent? <==> r == [] && !v.List?
    ensures v.Str? ==> |r| == 1 && r[0] == v.s
    ensures v.List? ==> r == v.items
  {
    match v
    case Absent => []
    case Str(s) => [s]
    case List(items) => items
  }

  /** `.find((p) => !!p)`: the first non-empty string. */
  function FindNonEmpty(items: seq<string>): (r: Option<string>)
    ensures r.Some? ==> r.value != ""
    ensures r.Some? ==>
      exists i :: 0 <= i < |items| && items[i] == r.value && forall j :: 0 <= j < i ==> items[j] == ""
    ensures r.None? <==> forall i :: 0 <= i < |items| ==> items[i] == ""
  {
    if items == [] then None
    else if items[0] != "" then Some(items[0])
    else
      var r := FindNonEmpty(items[1..]);
      assert r.Some? ==> exists i :: 0 <= i < |items| && items[i] == r.value && forall j :: 0 <= j < i ==> items[j] == "" by {
        if r.Some? {
          var k :| 0 <= k < |items[1..]| && items[1..][k] == r.value && forall j :: 0 <= j < k ==> items[1..][j] == "";
          assert items[k + 1] == r.value;
          assert forall j :: 0 <= j < k + 1 ==> items[j] == "" by {
            forall j | 0 <= j < k + 1 ensures items[j] == "" {
              if j > 0 { assert items[j] == items[1..][j - 1]; }
            }
          }
        }
      }
      assert r.None? ==> forall i :: 0 <= i < |items| ==> items[i] == "" by {
        if r.None? {
          forall i | 0 <= i < |items| ensures items[i] == "" {
            if i > 0 { assert items[i] == items[1..][i - 1]; }
          }
        }
      }
      r
  }

  /** The url `getFirstPath` takes from a candidate; an absent candidate
      gives none. */
  function UrlOf(c: Option<Candidate>): (r: Option<string>)
    ensures r.Some? ==> c.Some? && r.value != "" && r.value in Arrayify(c.value.url)
    ensures r.None? <==> c.None? || forall u :: u in Arrayify(c.value.url) ==> u == ""
  {
    if c.None? then None else FindNonEmpty(Arrayify(c.value.url))
  }

  /** `isFile`: `stat` is the file-system probe, None when it throws; a
      failed probe counts as "not a file" and is never propagated. */
  function IsFile(stat: string -> Option<bool>, path: string): (r: bool)
    ensures r <==> stat(path) == Some(true)
  {
    match stat(path)
    case None => false
    case Some(isRegularFile) => isRegularFile
  }

  /** The start path a candidate yields for its chosen url: its own
      `workspace` when given, otherwise whether the url names a file. */
  function Resolve(c: Candidate, url: string, stat: string -> Option<bool>): (r: StartPath)
    ensures r.url == url
    ensures c.workspace.Some? ==> r.workspace == c.workspace.value
    ensures c.workspace.None? ==> (r.workspace <==> stat(url) == Some(true))
  {
    StartPath(url, if c.workspace.Some? then c.workspace.value else IsFile(stat, url))
  }

  /** Reference definition of `getFirstPath`: the first candidate with a
      non-empty url decides. */
  function FirstPath(candidates: seq<Option<Candidate>>, stat: string -> Option<bool>): (r: Option<StartPath>)
    ensures r.Some? ==> r.value.url != ""
    ensures r.None? <==> forall i :: 0 <= i < |candidates| ==> UrlOf(candidates[i]).None?
  {
    if candidates == [] then None
    else match UrlOf(candidates[0])
      case Some(url) => Some(Resolve(candidates[0].value, url, stat))
      case None =>
        var r := FirstPath(candidates[1..], stat);
        assert r.None? ==> forall i :: 0 <= i < |candidates| ==> UrlOf(candidates[i]).None? by {
          if r.None? {
            forall i | 0 <= i < |candidates| ensures UrlOf(candidates[i]).None? {
              if i > 0 { assert candidates[i] == candidates[1..][i - 1]; }
            }
          }
        }
        assert r.Some? ==> exists i :: 0 <= i < |candidates| && UrlOf(candidates[i]).Some? by {
          if r.Some? {
            var k :| 0 <= k < |candidates[1..]| && UrlOf(candidates[1..][k]).Some?;
            assert candidates[k + 1] == candidates[1..][k];
          }
        }
        r
  }

  /** The first candidate with a url is the one that decides, whatever the
      later candidates hold. */
  lemma {:induction false} FirstPathPicksFirstUsable(candidates: seq<Option<Candidate>>,
                                                    stat: string -> Option<bool>, i: nat)
    requires i < |candidates| && UrlOf(candidates[i]).Some?
    requires forall j :: 0 <= j < i ==> UrlOf(candidates[j]).None?
    ensures FirstPath(candidates, stat) == Some(Resolve(candidates[i].value, UrlOf(candidates[i]).value, stat))
  {
    if i > 0 {
      forall j | 0 <= j < i - 1 ensures UrlOf(candidates[1..][j]).None? {
        assert candidates[1..][j] == candidates[j + 1];
      }
      FirstPathPicksFirstUsable(candidates[1..], stat, i - 1);
    }
  }

  /** A leading candidate without a url is passed over. */
  lemma FirstPathSkips(candidates: seq<Option<Candidate>>, stat: string -> Option<bool>)
    requires candidates != [] && UrlOf(candidates[0]).None?
    ensures FirstPath(candidates, stat) == FirstPath(candidates[1..], stat)
  {
  }

  /** A leading candidate with a url decides. */
  lemma FirstPathTakesHead(candidates: seq<Option<Candidate>>, stat: string -> Option<bool>)
    requires candidates != [] && UrlOf(candidates[0]).Some?
    ensures FirstPath(candidates, stat) == Some(Resolve(candidates[0].value, UrlOf(candidates[0]).value, stat))
  {
  }

  lemma AppendHeadTail<T>(xs: seq<T>, ys: seq<T>)
    requires xs != []
    ensures (xs + ys)[0] == xs[0] && (xs + ys)[1..] == xs[1..] + ys
  {
  }

  /** Candidates after a decisive one do not affect the result. */
  lemma {:induction false} FirstPathIgnoresLater(candidates: seq<Option<Candidate>>, later: seq<Option<Candidate>>,
                                                stat: string -> Option<bool>)
    requires FirstPath(candidates, stat).Some?
    ensures FirstPath(candidates + later, stat) == FirstPath(candidates, stat)
  {
    assert candidates != [];
    AppendHeadTail(candidates, later);
    if UrlOf(candidates[0]).None? {
      FirstPathSkips(candidates, stat);
      FirstPathSkips(candidates + later, stat);
      FirstPathIgnoresLater(candidates[1..], later, stat);
    } else {
      FirstPathTakesHead(candidates, stat);
      FirstPathTakesHead(candidates + later, stat);
    }
  }

  /** `getFirstPath`: the loop over the candidates with its early return. */
  method GetFirstPath(startPaths: seq<Option<Candidate>>, stat: string -> Option<bool>)
    returns (r: Option<StartPath>)
    ensures r == FirstPath(startPaths, stat)
  {
    var i := 0;
    while i < |startPaths|
      invariant 0 <= i <= |startPaths|
      invariant FirstPath(startPaths[i..], stat) == FirstPath(startPaths, stat)
    {
      var startPath := startPaths[i];
      var url := FindNonEmpty(Arrayify(if startPath.Some? then startPath.value.url else Absent));
      if startPath.Some? && url.Some? {
        var workspace := if startPath.value.workspace.Some? then startPath.value.workspace.value
                         else IsFile(stat, url.value);
        return Some(StartPath(url.value, workspace));
      }
      assert startPaths[i..][1..] == startPaths[i + 1..];
      i := i + 1;
    }
    return None;
  }

  /** The candidates the `/` handler passes, in priority order: the
      `workspace` query, the `folder` query, the last command-line path
      (resolved, probed for `workspace`) and the last visit. */
  function StartCandidates(workspaceQuery: QueryValue, folderQuery: QueryValue, positional: seq<string>,
                           resolve: string -> string, lastVisited: Option<StartPath>): (r: seq<Option<Candidate>>)
    ensures |r| == 4
    ensures r[0] == Some(Candidate(workspaceQuery, Some(true))) && r[1] == Some(Candidate(folderQuery, Some(false)))
    ensures r[2].Some? <==> |positional| > 0
    ensures r[2].Some? ==> r[2].value.workspace.None?
    ensures r[3].Some? <==> lastVisited.Some?
    ensures r[3].Some? ==> r[3].value.workspace.Some?
  {
    [ Some(Candidate(workspaceQuery, Some(true))),
      Some(Candidate(folderQuery, Some(false))),
      if |positional| > 0 then Some(Candidate(Str(resolve(positional[|positional| - 1])), None)) else None,
      if lastVisited.Some? then Some(Candidate(Str(lastVisited.value.url), Some(lastVisited.value.workspace)))
      else None ]
  }

  /** The start path the `/` handler resolves. */
  function ChooseStartPath(workspaceQuery: QueryValue, folderQuery: QueryValue, positional: seq<string>,
                           resolve: string -> string, lastVisited: Option<StartPath>,
                           stat: string -> Option<bool>): (r: Option<StartPath>)
    ensures r.Some? ==> r.value.url != ""
    ensures r.None? <==> FindNonEmpty(Arrayify(workspaceQuery)).None? && FindNonEmpty(Arrayify(folderQuery)).None?
                         && (|positional| == 0 || resolve(positional[|positional| - 1]) == "")
                         && (lastVisited.None? || lastVisited.value.url == "")
  {
    var cs := StartCandidates(workspaceQuery, folderQuery, positional, resolve, lastVisited);
    assert UrlOf(cs[2]).None? <==> |positional| == 0 || resolve(positional[|positional| - 1]) == "";
    assert UrlOf(cs[3]).None? <==> lastVisited.None? || lastVisited.value.url == "";
    FirstPath(StartCandidates(workspaceQuery, folderQuery, positional, resolve, lastVisited), stat)
  }

  /** The order the handler gives its sources: a `workspace` query beats a
      `folder` query, which beats the command line, which beats the last
      visit; nothing usable gives no start path. */
  lemma {:induction false} StartPathPriority(workspaceQuery: QueryValue, folderQuery: QueryValue, positional: seq<string>,
                                            resolve: string -> string, lastVisited: Option<StartPath>,
                                            stat: string -> Option<bool>)
    ensures var w := FindNonEmpty(Arrayify(workspaceQuery));
            var f := FindNonEmpty(Arrayify(folderQuery));
            var cli := if |positional| > 0 then resolve(positional[|positional| - 1]) else "";
            var r := ChooseStartPath(workspaceQuery, folderQuery, positional, resolve, lastVisited, stat);
            && (w.Some? ==> r == Some(StartPath(w.value, true)))
            && (w.None? && f.Some? ==> r == Some(StartPath(f.value, false)))
            && (w.None? && f.None? && cli != "" ==> r == Some(StartPath(cli, IsFile(stat, cli))))
            && (w.None? && f.None? && cli != "" && stat(cli).None? ==> r == Some(StartPath(cli, false)))
            && (w.None? && f.None? && cli == "" ==>
                  r == if lastVisited.Some? && lastVisited.value.url != "" then lastVisited else None)
  {
    var cs := StartCandidates(workspaceQuery, folderQuery, positional, resolve, lastVisited);
    var w := FindNonEmpty(Arrayify(workspaceQuery));
    var f := FindNonEmpty(Arrayify(folderQuery));
    var cli := if |positional| > 0 then resolve(positional[|positional| - 1]) else "";
    assert UrlOf(cs[0]) == w;
    assert UrlOf(cs[1]) == f;
    assert UrlOf(cs[2]) == if cli != "" then Some(cli) else None;
    assert UrlOf(cs[3]) == if lastVisited.Some? && lastVisited.value.url != "" then Some(lastVisited.value.url) else None;
    if w.Some? {
      FirstPathPicksFirstUsable(cs, stat, 0);
    } else if f.Some? {
      FirstPathPicksFirstUsable(cs, stat, 1);
    } else if cli != "" {
      FirstPathPicksFirstUsable(cs, stat, 2);
    } else if lastVisited.Some? && lastVisited.value.url != "" {
      FirstPathPicksFirstUsable(cs, stat, 3);
    }
  }

  /** The file-system probe only matters when the command-line path is the
      candidate chosen. */
  lemma ProbeOnlyForCommandLine(workspaceQuery: QueryValue, folderQuery: QueryValue, positional: seq<string>,
                                resolve: string -> string, lastVisited: Option<StartPath>,
                                stat1: string -> Option<bool>, stat2: string -> Option<bool>)
    requires FindNonEmpty(Arrayify(workspaceQuery)).Some? || FindNonEmpty(Arrayify(folderQuery)).Some?
             || positional == [] || resolve(positional[|positional| - 1]) == ""
    ensures ChooseStartPath(workspaceQuery, folderQuery, positional, resolve, lastVisited, stat1)
         == ChooseStartPath(workspaceQuery, folderQuery, positional, resolve, lastVisited, stat2)
  {
    StartPathPriority(workspaceQuery, folderQuery, positional, resolve, lastVisited, stat1);
    StartPathPriority(workspaceQuery, folderQuery, positional, resolve, lastVisited, stat2);
  }

  /** `startPath || lastVisited`: what the handler persists as the last visit. */
  function NextLastVisited(startPath: Option<StartPath>, lastVisited: Option<StartPath>): (r: Option<StartPath>)
    ensures startPath.Some? ==> r == startPath
    ensures startPath.None? ==> r == lastVisited
  {
    startPath.OrElse(lastVisited)
  }

  /** The last visit is replaced by the resolved start path whenever there is
      one; it is kept only when nothing resolved, and then it had no usable
      url itself. */
  lemma PersistedLastVisited(workspaceQuery: QueryValue, folderQuery: QueryValue, positional: seq<string>,
                             resolve: string -> string, lastVisited: Option<StartPath>,
                             stat: string -> Option<bool>)
    ensures var r := ChooseStartPath(workspaceQuery, folderQuery, positional, resolve, lastVisited, stat);
            && (r.Some? ==> NextLastVisited(r, lastVisited) == r)
            && (r.None? ==> NextLastVisited(r, lastVisited) == lastVisited &&
                            (lastVisited.None? || lastVisited.value.url == ""))
  {
    StartPathPriority(workspaceQuery, folderQuery, positional, resolve, lastVisited, stat);
  }

  /** A later visit with no query and no command-line path resumes the
      start path this visit resolved (or, when it resolved none, again
      resolves none). */
  lemma RevisitResumes(workspaceQuery: QueryValue, folderQuery: QueryValue, positional: seq<string>,
                       resolve: string -> string, lastVisited: Option<StartPath>,
                       stat: string -> Option<bool>)
    ensures var r := ChooseStartPath(workspaceQuery, folderQuery, positional, resolve, lastVisited, stat);
            ChooseStartPath(Absent, Absent, [], resolve, NextLastVisited(r, lastVisited), stat) == r
  {
    var r := ChooseStartPath(workspaceQuery, folderQuery, positional, resolve, lastVisited, stat);
    StartPathPriority(workspaceQuery, folderQuery, positional, resolve, lastVisited, stat);
    StartPathPriority(Absent, Absent, [], resolve, NextLastVisited(r, lastVisited), stat);
  }

  // ---------------------------------------------------------------------
  // Production page

  const ProdOnlyOpen := "<!-- PROD_ONLY"
  const ProdOnlyClose := "END_PROD_ONLY -->"

  /** Outside a development build both markers are removed everywhere from
      the page; in development the page is left as it is. */
  function ProductionPage(content: string, commit: string): (r: string)
    ensures commit == "development" ==> r == content
    ensures |r| <= |content|
  {
    if commit != "development" then RemoveAll(RemoveAll(content, ProdOnlyOpen), ProdOnlyClose)
    else content
  }

  lemma MarkersBeginOnlyAtStart()
    ensures BeginsOnlyAtStart(ProdOnlyOpen) && BeginsOnlyAtStart(ProdOnlyClose)
    ensures 'E' !in ProdOnlyOpen && '<' !in ProdOnlyClose
  {
  }

  /** The closing marker cannot complete an opening one, so text around it
      that holds no opening marker holds none after it is put in. */
  lemma NoOpenAcrossClose(b: string, c: string)
    requires !Contains(b, ProdOnlyOpen) && !Contains(c, ProdOnlyOpen)
    ensures !Contains(b + ProdOnlyClose + c, ProdOnlyOpen)
  {
    var w := b + ProdOnlyClose + c;
    var n := |ProdOnlyOpen|;
    MarkersBeginOnlyAtStart();
    forall i ensures !OccursAt(w, ProdOnlyOpen, i) {
      if 0 <= i && i + n <= |w| {
        if i + n <= |b| {
          assert w[i..i + n] == b[i..i + n];
          assert !OccursAt(b, ProdOnlyOpen, i);
        } else if i < |b| {
          assert w[|b|] == 'E';
          assert w[i..i + n][|b| - i] == w[|b|];
        } else if i < |b| + |ProdOnlyClose| {
          assert w[i] == ProdOnlyClose[i - |b|];
          assert w[i..i + n][0] == w[i];
        } else {
          var k := i - |b| - |ProdOnlyClose|;
          assert w[i..i + n] == c[k..k + n];
          assert !OccursAt(c, ProdOnlyOpen, k);
        }
      }
    }
  }

  /** A production page uncomments its PROD_ONLY block: the markers go and
      the text between and around them stays, provided that text holds no
      marker itself and the text on either side of the removed opening
      marker does not join into a closing one. */
  lemma ProdOnlyBlockUncommented(a: string, b: string, c: string, commit: string)
    requires commit != "development"
    requires !Contains(a, ProdOnlyOpen) && !Contains(b, ProdOnlyOpen) && !Contains(c, ProdOnlyOpen)
    requires !Contains(a + b, ProdOnlyClose) && !Contains(c, ProdOnlyClose)
    ensures ProductionPage(a + ProdOnlyOpen + b + ProdOnlyClose + c, commit) == a + b + c
  {
    MarkersBeginOnlyAtStart();
    var rest := b + ProdOnlyClose + c;
    assert a + ProdOnlyOpen + b + ProdOnlyClose + c == a + ProdOnlyOpen + rest;
    RemoveAllSplice(a, ProdOnlyOpen, rest);
    NoOpenAcrossClose(b, c);
    RemoveAllUnchangedIff(rest, ProdOnlyOpen);
    assert a + rest == (a + b) + ProdOnlyClose + c;
    RemoveAllSplice(a + b, ProdOnlyClose, c);
    RemoveAllUnchangedIff(c, ProdOnlyClose);
  }

  /** The production page differs from the shell exactly when the shell
      holds a marker. */
  lemma ProductionPageUnchangedIff(content: string, commit: string)
    requires commit != "development"
    ensures ProductionPage(content, commit) == content <==>
            !Contains(content, ProdOnlyOpen) && !Contains(content, ProdOnlyClose)
  {
    var once := RemoveAll(content, ProdOnlyOpen);
    RemoveAllUnchangedIff(content, ProdOnlyOpen);
    RemoveAllUnchangedIff(once, ProdOnlyClose);
    if Contains(content, ProdOnlyOpen) {
      RemoveAllShrinks(content, ProdOnlyOpen);
    }
  }
}
