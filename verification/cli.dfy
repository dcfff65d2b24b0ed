/**
 * The engine's command line: `argv[1]` is the URL, and the arguments after
 * it switch pagination on, set the page limit, or give the extraction
 * strategy as JSON. Then one page or a paginated walk is scraped and its
 * result printed as JSON.
 */
module Cli {
  import opened Wrappers
  import opened Text
  import opened Json
  import opened Lib
  import opened Merge
  import opened Crawl

  /** What the command line asks for. A `Null` strategy stands for `None`. */
  datatype Invocation = Invocation(url: string, usePagination: bool, maxPages: int, strategy: Json)

  const UrlRequired: string := "URL argument is required"
  const InvalidMaxPages: string := "Invalid max-pages value"
  const PaginationFlag: string := "--pagination"
  const MaxPagesFlag: string := "--max-pages="
  const DefaultMaxPages: int := 5

  /** `arg.split("=")[1]` for an argument that starts with `--max-pages=`: the text after it up to the next `=` or the end. */
  function MaxPagesValue(arg: string): (v: string)
    requires StartsWith(arg, MaxPagesFlag)
    ensures |MaxPagesFlag| + |v| <= |arg| && arg[|MaxPagesFlag|..|MaxPagesFlag| + |v|] == v && '=' !in v
    ensures |MaxPagesFlag| + |v| < |arg| ==> arg[|MaxPagesFlag| + |v|] == '='
  {
    Before(arg[|MaxPagesFlag|..], '=')
  }

  /** An argument that is neither `--pagination` nor a `--max-pages=` setting: a candidate strategy. */
  predicate IsOther(arg: string) {
    arg != PaginationFlag && !StartsWith(arg, MaxPagesFlag)
  }

  /** `--pagination` is not a `--max-pages=` setting. */
  lemma FlagsDiffer()
    ensures !StartsWith(PaginationFlag, MaxPagesFlag)
  {
    assert PaginationFlag[2] != MaxPagesFlag[2];
  }

  /** A `--max-pages=` setting whose value `int()` rejects. */
  predicate BadMaxPages(arg: string, lib: Lib) {
    StartsWith(arg, MaxPagesFlag) && lib.parseInt(MaxPagesValue(arg)).None?
  }

  /** An argument that decodes as JSON to a value Python takes as true. */
  predicate TruthyJson(arg: string, lib: Lib) {
    lib.parseJson(arg).Some? && Truthy(lib.parseJson(arg).value)
  }

  /** What one argument after the URL does to the invocation read so far. */
  function ReadOne(arg: string, inv: Invocation, lib: Lib): Result<Invocation, string> {
    if arg == PaginationFlag then Ok(inv.(usePagination := true))
    else if StartsWith(arg, MaxPagesFlag) then
      match lib.parseInt(MaxPagesValue(arg))
      case None => Err(InvalidMaxPages)
      case Some(n) => Ok(inv.(maxPages := n))
    else if !Truthy(inv.strategy) then
      match lib.parseJson(arg)
      case None => Ok(inv)
      case Some(j) => Ok(inv.(strategy := j))
    else Ok(inv)
  }

  /** The arguments read in turn from `inv`, stopping at the first bad page limit. */
  function ReadOptions(args: seq<string>, inv: Invocation, lib: Lib): Result<Invocation, string>
    decreases |args|
  {
    if args == [] then Ok(inv)
    else
      match ReadOne(args[0], inv, lib)
      case Err(e) => Err(e)
      case Ok(next) => ReadOptions(args[1..], next, lib)
  }

  /** What `main` makes of `sys.argv`. */
  function Parse(argv: seq<string>, lib: Lib): Result<Invocation, string> {
    if |argv| < 2 then Err(UrlRequired)
    else ReadOptions(argv[2..], Invocation(argv[1], false, DefaultMaxPages, Null), lib)
  }

  /** The loop of `main` over `sys.argv[2:]`. */
  method ParseArgs(argv: seq<string>, lib: Lib) returns (r: Result<Invocation, string>)
    ensures r == Parse(argv, lib)
  {
    if |argv| < 2 {
      return Err(UrlRequired);
    }
    var url := argv[1];
    var strategy := Null;
    var usePagination := false;
    var maxPages := DefaultMaxPages;
    for i := 2 to |argv|
      invariant ReadOptions(argv[i..], Invocation(url, usePagination, maxPages, strategy), lib) == Parse(argv, lib)
    {
      var arg := argv[i];
      assert argv[i..][1..] == argv[i + 1..];
      if arg == PaginationFlag {
        usePagination := true;
      } else if StartsWith(arg, MaxPagesFlag) {
        var n := lib.parseInt(MaxPagesValue(arg));
        if n.None? {
          return Err(InvalidMaxPages);
        }
        maxPages := n.value;
      } else if !Truthy(strategy) {
        var parsed := lib.parseJson(arg);
        if parsed.Some? {
          strategy := parsed.value;
        }
      }
    }
    r := Ok(Invocation(url, usePagination, maxPages, strategy));
  }

  /** Reading the arguments fails exactly when one of them is a page limit `int()` rejects, and then with that message; the URL is kept. */
  lemma {:induction false} ReadOptionsFails(args: seq<string>, inv: Invocation, lib: Lib)
    ensures ReadOptions(args, inv, lib).Err? <==> exists i :: 0 <= i < |args| && BadMaxPages(args[i], lib)
    ensures ReadOptions(args, inv, lib).Err? ==> ReadOptions(args, inv, lib).error == InvalidMaxPages
    ensures ReadOptions(args, inv, lib).Ok? ==> ReadOptions(args, inv, lib).value.url == inv.url
    decreases |args|
  {
    if args != [] {
      assert forall i :: 0 < i < |args| ==> args[i] == args[1..][i - 1];
      FlagsDiffer();
      match ReadOne(args[0], inv, lib)
      case Err(_) =>
        assert BadMaxPages(args[0], lib);
      case Ok(next) =>
        ReadOptionsFails(args[1..], next, lib);
    }
  }

  /** Pagination is on after reading exactly when it was on before or `--pagination` is among the arguments. */
  lemma {:induction false} ReadOptionsPagination(args: seq<string>, inv: Invocation, lib: Lib)
    ensures ReadOptions(args, inv, lib).Ok? ==>
      (ReadOptions(args, inv, lib).value.usePagination <==> inv.usePagination || PaginationFlag in args)
    decreases |args|
  {
    if args != [] && ReadOne(args[0], inv, lib).Ok? {
      assert args == [args[0]] + args[1..];
      ReadOptionsPagination(args[1..], ReadOne(args[0], inv, lib).value, lib);
    }
  }

  /** The page limit after reading is the value of the last `--max-pages=` setting, or the one before when there is none. */
  lemma {:induction false} ReadOptionsMaxPages(args: seq<string>, inv: Invocation, lib: Lib)
    ensures ReadOptions(args, inv, lib).Ok? ==>
      var n := ReadOptions(args, inv, lib).value.maxPages;
      && ((forall i :: 0 <= i < |args| ==> !StartsWith(args[i], MaxPagesFlag)) ==> n == inv.maxPages)
      && ((exists i :: 0 <= i < |args| && StartsWith(args[i], MaxPagesFlag)) ==>
            exists i :: (0 <= i < |args| && StartsWith(args[i], MaxPagesFlag) &&
              lib.parseInt(MaxPagesValue(args[i])) == Some(n) &&
              forall j :: i < j < |args| ==> !StartsWith(args[j], MaxPagesFlag)))
    decreases |args|
  {
    if args != [] && ReadOne(args[0], inv, lib).Ok? && ReadOptions(args, inv, lib).Ok? {
      var arg := args[0];
      var next := ReadOne(arg, inv, lib).value;
      assert forall i :: 0 < i < |args| ==> args[i] == args[1..][i - 1];
      FlagsDiffer();
      ReadOptionsMaxPages(args[1..], next, lib);
      var n := ReadOptions(args, inv, lib).value.maxPages;
      if exists i :: 0 <= i < |args[1..]| && StartsWith(args[1..][i], MaxPagesFlag) {
        var i :| 0 <= i < |args[1..]| && StartsWith(args[1..][i], MaxPagesFlag) &&
          lib.parseInt(MaxPagesValue(args[1..][i])) == Some(n) &&
          forall j :: i < j < |args[1..]| ==> !StartsWith(args[1..][j], MaxPagesFlag);
        assert args[i + 1] == args[1..][i];
      } else if StartsWith(arg, MaxPagesFlag) {
        assert forall j :: 0 <= j < |args[1..]| ==> !StartsWith(args[1..][j], MaxPagesFlag);
        assert lib.parseInt(MaxPagesValue(args[0])) == Some(n);
      }
    }
  }

  /** A true strategy is kept, and so is any strategy when no candidate after the URL decodes as JSON. */
  lemma {:induction false} ReadOptionsStrategyKept(args: seq<string>, inv: Invocation, lib: Lib)
    ensures ReadOptions(args, inv, lib).Ok? ==>
      var s := ReadOptions(args, inv, lib).value.strategy;
      && (Truthy(inv.strategy) ==> s == inv.strategy)
      && ((forall i :: 0 <= i < |args| && IsOther(args[i]) ==> lib.parseJson(args[i]).None?) ==> s == inv.strategy)
    decreases |args|
  {
    if args != [] && ReadOne(args[0], inv, lib).Ok? {
      assert forall i :: 0 < i < |args| ==> args[i] == args[1..][i - 1];
      ReadOptionsStrategyKept(args[1..], ReadOne(args[0], inv, lib).value, lib);
    }
  }

  /**
   * Without a true strategy to start from, the strategy after reading is the
   * first candidate that decodes to a true value, when there is one.
   */
  lemma {:induction false} ReadOptionsStrategyFirst(args: seq<string>, inv: Invocation, lib: Lib)
    ensures
      && ReadOptions(args, inv, lib).Ok? && !Truthy(inv.strategy)
      && (exists i :: 0 <= i < |args| && IsOther(args[i]) && TruthyJson(args[i], lib))
      ==>
        var s := ReadOptions(args, inv, lib).value.strategy;
        exists i :: (0 <= i < |args| && IsOther(args[i]) && lib.parseJson(args[i]) == Some(s) && Truthy(s) &&
          forall j :: 0 <= j < i ==> !(IsOther(args[j]) && TruthyJson(args[j], lib)))
    decreases |args|
  {
    if args != [] && ReadOptions(args, inv, lib).Ok? && !Truthy(inv.strategy) {
      var arg := args[0];
      var next := ReadOne(arg, inv, lib).value;
      var s := ReadOptions(args, inv, lib).value.strategy;
      if IsOther(arg) && TruthyJson(arg, lib) {
        ReadOptionsStrategyKept(args[1..], next, lib);
        assert s == lib.parseJson(arg).value;
      } else if exists i :: 0 <= i < |args| && IsOther(args[i]) && TruthyJson(args[i], lib) {
        FlagsDiffer();
        LaterCandidate(args, lib);
        ReadOptionsStrategyFirst(args[1..], next, lib);
        FirstCandidateShift(args, s, lib);
      }
    }
  }

  /** A candidate decoding to a true value, when the first argument is none, is one of the rest. */
  lemma LaterCandidate(args: seq<string>, lib: Lib)
    requires args != [] && !(IsOther(args[0]) && TruthyJson(args[0], lib))
    requires exists i :: 0 <= i < |args| && IsOther(args[i]) && TruthyJson(args[i], lib)
    ensures exists i :: 0 <= i < |args[1..]| && IsOther(args[1..][i]) && TruthyJson(args[1..][i], lib)
  {
    var k :| 0 <= k < |args| && IsOther(args[k]) && TruthyJson(args[k], lib);
    assert k > 0 && args[1..][k - 1] == args[k];
  }

  /** The first true candidate of the rest is the first of all when the first argument is none. */
  lemma FirstCandidateShift(args: seq<string>, s: Json, lib: Lib)
    requires args != [] && !(IsOther(args[0]) && TruthyJson(args[0], lib))
    requires exists i :: (0 <= i < |args[1..]| && IsOther(args[1..][i]) && lib.parseJson(args[1..][i]) == Some(s) && Truthy(s) &&
      forall j :: 0 <= j < i ==> !(IsOther(args[1..][j]) && TruthyJson(args[1..][j], lib)))
    ensures exists i :: (0 <= i < |args| && IsOther(args[i]) && lib.parseJson(args[i]) == Some(s) && Truthy(s) &&
      forall j :: 0 <= j < i ==> !(IsOther(args[j]) && TruthyJson(args[j], lib)))
  {
    var i :| 0 <= i < |args[1..]| && IsOther(args[1..][i]) && lib.parseJson(args[1..][i]) == Some(s) && Truthy(s) &&
      forall j :: 0 <= j < i ==> !(IsOther(args[1..][j]) && TruthyJson(args[1..][j], lib));
    assert forall j :: 0 < j <= i ==> args[j] == args[1..][j - 1];
    assert args[i + 1] == args[1..][i];
  }

  /**
   * When no candidate decodes to a true value, each one that decodes replaces
   * the strategy in turn (it stays false), so the last of them is kept.
   */
  lemma {:induction false} ReadOptionsStrategyLast(args: seq<string>, inv: Invocation, lib: Lib)
    ensures
      && ReadOptions(args, inv, lib).Ok? && !Truthy(inv.strategy)
      && (forall i :: 0 <= i < |args| && IsOther(args[i]) ==> !TruthyJson(args[i], lib))
      && (exists i :: 0 <= i < |args| && IsOther(args[i]) && lib.parseJson(args[i]).Some?)
      ==>
        var s := ReadOptions(args, inv, lib).value.strategy;
        exists i :: (0 <= i < |args| && IsOther(args[i]) && lib.parseJson(args[i]) == Some(s) &&
          forall j :: i < j < |args| && IsOther(args[j]) ==> lib.parseJson(args[j]).None?)
    decreases |args|
  {
    if
      && args != [] && ReadOptions(args, inv, lib).Ok? && !Truthy(inv.strategy)
      && (forall i :: 0 <= i < |args| && IsOther(args[i]) ==> !TruthyJson(args[i], lib))
    {
      var arg := args[0];
      var next := ReadOne(arg, inv, lib).value;
      var s := ReadOptions(args, inv, lib).value.strategy;
      assert forall i :: 0 < i < |args| ==> args[i] == args[1..][i - 1];
      FlagsDiffer();
      ReadOptionsStrategyLast(args[1..], next, lib);
      if exists i :: 0 <= i < |args[1..]| && IsOther(args[1..][i]) && lib.parseJson(args[1..][i]).Some? {
        var i :| 0 <= i < |args[1..]| && IsOther(args[1..][i]) && lib.parseJson(args[1..][i]) == Some(s) &&
          forall j :: i < j < |args[1..]| && IsOther(args[1..][j]) ==> lib.parseJson(args[1..][j]).None?;
        assert args[i + 1] == args[1..][i];
      } else if IsOther(arg) && lib.parseJson(arg).Some? {
        ReadOptionsStrategyKept(args[1..], next, lib);
        assert lib.parseJson(args[0]) == Some(s);
      }
    }
  }

  /**
   * `main`'s reading of `sys.argv`: a URL is required; pagination is on
   * exactly when `--pagination` is given; the page limit is the last
   * `--max-pages=` value, 5 when there is none; a bad limit is an error.
   */
  lemma ParseFacts(argv: seq<string>, lib: Lib)
    ensures |argv| < 2 ==> Parse(argv, lib) == Err(UrlRequired)
    ensures |argv| >= 2 ==>
      (Parse(argv, lib).Err? <==> exists i :: 2 <= i < |argv| && BadMaxPages(argv[i], lib))
    ensures Parse(argv, lib).Err? ==> Parse(argv, lib).error in {UrlRequired, InvalidMaxPages}
    ensures Parse(argv, lib).Ok? ==>
      var inv := Parse(argv, lib).value;
      && inv.url == argv[1]
      && (inv.usePagination <==> PaginationFlag in argv[2..])
      && ((forall i :: 2 <= i < |argv| ==> !StartsWith(argv[i], MaxPagesFlag)) ==> inv.maxPages == DefaultMaxPages)
      && ((forall i :: 2 <= i < |argv| && IsOther(argv[i]) ==> lib.parseJson(argv[i]).None?) ==> inv.strategy == Null)
  {
    if |argv| >= 2 {
      var args := argv[2..];
      var start := Invocation(argv[1], false, DefaultMaxPages, Null);
      ReadOptionsFails(args, start, lib);
      ReadOptionsPagination(args, start, lib);
      ReadOptionsMaxPages(args, start, lib);
      ReadOptionsStrategyKept(args, start, lib);
      assert forall i :: 2 <= i < |argv| ==> argv[i] == args[i - 2];
      if exists i :: 0 <= i < |args| && BadMaxPages(args[i], lib) {
        var i :| 0 <= i < |args| && BadMaxPages(args[i], lib);
        assert BadMaxPages(argv[i + 2], lib);
      }
    }
  }

  /** What `main` prints: a failure's message, or the data of the scraped page or pages. */
  datatype Reply = Failure(error: string) | Single(page: Page) | Paginated(data: Combined)

  /** The printed reply and the process's exit status. */
  datatype Exit = Exit(reply: Reply, code: int)

  /** `main`: read the arguments, then scrape one page or the paginated walk. */
  function Run(argv: seq<string>, site: Site, lib: Lib): Exit {
    match Parse(argv, lib)
    case Err(e) => Exit(Failure(e), 1)
    case Ok(inv) =>
      if inv.usePagination then
        match Paginate(inv.url, inv.maxPages, inv.strategy, site, lib)
        case Ok(c) => Exit(Paginated(c), 0)
        case Err(e) => Exit(Failure(e), 0)
      else
        match ScrapeSingle(site, inv.url, inv.strategy)
        case Fetched(p) => Exit(Single(p), 0)
        case FetchFailed(e) => Exit(Failure(e), 0)
  }

  /**
   * `main` exits with status 1 exactly when the arguments are rejected, and
   * prints that message; a scrape that fails is still printed with status 0.
   * Without `--pagination` no walk is made: the one page is scraped. Without
   * the crawling library either mode prints the install message.
   */
  lemma RunFacts(argv: seq<string>, site: Site, lib: Lib)
    ensures Run(argv, site, lib).code == 1 <==> Parse(argv, lib).Err?
    ensures Run(argv, site, lib).code == 0 || Run(argv, site, lib).code == 1
    ensures |argv| < 2 ==> Run(argv, site, lib) == Exit(Failure(UrlRequired), 1)
    ensures Parse(argv, lib).Ok? && !Parse(argv, lib).value.usePagination ==>
      var inv := Parse(argv, lib).value;
      Run(argv, site, lib).reply == if !site.available then Failure(NotInstalled) else
        match site.fetch(inv.url, inv.strategy)
        case Fetched(p) => Single(p)
        case FetchFailed(e) => Failure(e)
    ensures Parse(argv, lib).Ok? && !site.available ==> Run(argv, site, lib) == Exit(Failure(NotInstalled), 0)
  {
    if Parse(argv, lib).Ok? {
      var inv := Parse(argv, lib).value;
      PaginateOutcome(inv.url, inv.maxPages, inv.strategy, site, Step(lib));
    }
  }
}
