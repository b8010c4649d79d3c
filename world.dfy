/**
 * The surroundings of the CLI process: the filesystem, child processes and the
 * terminal.  The filesystem is a set of existing paths plus the symbolic links
 * among them; every observable effect is appended to an event trace; the exit
 * code of the n-th child process and the n-th line typed at a prompt come from
 * two oracles fixed when the world is created.
 */
module World {

  datatype Path = Path(segments: seq<string>)

  /** pathlib's `p / name` (and os.path.join): joining "" leaves the path as it is. */
  function Child(p: Path, name: string): Path
  {
    if name == "" then p else Path(p.segments + [name])
  }

  /** What mkdir(parents=True) leaves existing: the directory and every ancestor of it. */
  function Lineage(p: Path): set<Path>
  {
    set k | 1 <= k <= |p.segments| :: Path(p.segments[..k])
  }

  lemma LineageHasNoLongerPath(p: Path, q: Path)
    requires |q.segments| > |p.segments|
    ensures q !in Lineage(p)
  {
  }

  /** The three files rendered into an environment directory. */
  datatype Template = VariablesTf | MainTf | OutputsTf

  function FileName(t: Template): string
  {
    match t
    case VariablesTf => "variables.tf"
    case MainTf => "main.tf"
    case OutputsTf => "outputs.tf"
  }

  datatype Event =
    | Exec(argv: seq<string>, cwd: Path, captured: bool)
    | Prompt(text: string)
    | MakeDirs(dir: Path)
    | Symlink(link: Path, target: Path)
    | Render(template: Template, dir: Path, context: map<string, string>, dryRun: bool)

  /** The argument lists of the processes a trace executed, in order. */
  function Commands(t: seq<Event>): (cs: seq<seq<string>>)
    ensures |cs| <= |t|
  {
    if t == [] then []
    else (if t[0].Exec? then [t[0].argv] else []) + Commands(t[1..])
  }

  /** The prompts a trace showed, in order. */
  function Prompts(t: seq<Event>): (ps: seq<string>)
    ensures |ps| <= |t|
  {
    if t == [] then []
    else (if t[0].Prompt? then [t[0].text] else []) + Prompts(t[1..])
  }

  /** The templates a trace rendered, in order. */
  function Renders(t: seq<Event>): (rs: seq<Template>)
    ensures |rs| <= |t|
  {
    if t == [] then []
    else (if t[0].Render? then [t[0].template] else []) + Renders(t[1..])
  }

  /** One prompt event per text, in order. */
  function PromptEvents(texts: seq<string>): (es: seq<Event>)
    ensures |es| == |texts|
    ensures forall i :: 0 <= i < |texts| ==> es[i] == Prompt(texts[i])
  {
    seq(|texts|, i requires 0 <= i < |texts| => Prompt(texts[i]))
  }

  /** A single event contributes its own command, if it is one. */
  lemma CommandsOfOne(e: Event)
    ensures Commands([e]) == if e.Exec? then [e.argv] else []
  {
    assert [e][1..] == [];
  }

  /** A single event contributes its own prompt, if it is one. */
  lemma PromptsOfOne(e: Event)
    ensures Prompts([e]) == if e.Prompt? then [e.text] else []
  {
    assert [e][1..] == [];
  }

  lemma {:induction false} CommandsConcat(a: seq<Event>, b: seq<Event>)
    ensures Commands(a + b) == Commands(a) + Commands(b)
  {
    if a == [] {
      assert a + b == b;
    } else {
      assert (a + b)[0] == a[0] && (a + b)[1..] == a[1..] + b;
      CommandsConcat(a[1..], b);
      assert Commands(a + b) == (if a[0].Exec? then [a[0].argv] else []) + Commands(a[1..] + b);
    }
  }

  lemma {:induction false} PromptsConcat(a: seq<Event>, b: seq<Event>)
    ensures Prompts(a + b) == Prompts(a) + Prompts(b)
  {
    if a == [] {
      assert a + b == b;
    } else {
      assert (a + b)[0] == a[0] && (a + b)[1..] == a[1..] + b;
      PromptsConcat(a[1..], b);
      assert Prompts(a + b) == (if a[0].Prompt? then [a[0].text] else []) + Prompts(a[1..] + b);
    }
  }

  lemma {:induction false} RendersConcat(a: seq<Event>, b: seq<Event>)
    ensures Renders(a + b) == Renders(a) + Renders(b)
  {
    if a == [] {
      assert a + b == b;
    } else {
      assert (a + b)[0] == a[0] && (a + b)[1..] == a[1..] + b;
      RendersConcat(a[1..], b);
      assert Renders(a + b) == (if a[0].Render? then [a[0].template] else []) + Renders(a[1..] + b);
    }
  }

  lemma RendersOfOne(e: Event)
    ensures Renders([e]) == if e.Render? then [e.template] else []
  {
    assert [e][1..] == [];
  }

  /** A run of prompt events shows exactly its texts and runs and renders nothing. */
  lemma {:induction false} PromptEventsProjections(texts: seq<string>)
    ensures Prompts(PromptEvents(texts)) == texts
    ensures Commands(PromptEvents(texts)) == []
    ensures Renders(PromptEvents(texts)) == []
  {
    if texts != [] {
      assert PromptEvents(texts)[1..] == PromptEvents(texts[1..]);
      PromptEventsProjections(texts[1..]);
    }
  }

  /** Appending one prompt shows one more text. */
  lemma PromptsAppendOne(t: seq<Event>, text: string)
    ensures Prompts(t + [Prompt(text)]) == Prompts(t) + [text]
  {
    PromptsConcat(t, [Prompt(text)]);
    PromptsOfOne(Prompt(text));
  }

  class World {
    /** Every path that exists: directories, files and links. */
    var fs: set<Path>
    /** Symbolic links: link path to the path it points at. */
    var links: map<Path, Path>
    /** Everything the CLI did to the world so far, in order. */
    var trace: seq<Event>
    /** Exit code of the n-th executed process (counting from 0). */
    const exitCodes: nat -> int
    /** Line typed at the n-th prompt (counting from 0). */
    const answers: nat -> string

    /** Every link is an existing path, so an existing link is never created again. */
    ghost predicate Valid()
      reads this
    {
      links.Keys <= fs
    }

    constructor (paths: set<Path>, exitCodes: nat -> int, answers: nat -> string)
      ensures Valid()
      ensures fs == paths && links == map[] && trace == []
      ensures this.exitCodes == exitCodes && this.answers == answers
    {
      fs := paths;
      links := map[];
      trace := [];
      this.exitCodes := exitCodes;
      this.answers := answers;
    }

    /** subprocess.run with shell=False: one process, argv passed as a list, in cwd. */
    method Spawn(argv: seq<string>, cwd: Path, captured: bool) returns (code: int)
      requires Valid()
      modifies this
      ensures Valid()
      ensures trace == old(trace) + [Exec(argv, cwd, captured)]
      ensures code == exitCodes(|Commands(old(trace))|)
      ensures fs == old(fs) && links == old(links)
    {
      code := exitCodes(|Commands(trace)|);
      CommandsConcat(trace, [Exec(argv, cwd, captured)]);
      trace := trace + [Exec(argv, cwd, captured)];
    }

    /** input(text): shows the prompt and returns the next line the user types. */
    method ReadLine(text: string) returns (line: string)
      requires Valid()
      modifies this
      ensures Valid()
      ensures trace == old(trace) + [Prompt(text)]
      ensures line == answers(|Prompts(old(trace))|)
      ensures fs == old(fs) && links == old(links)
    {
      line := answers(|Prompts(trace)|);
      trace := trace + [Prompt(text)];
    }

    /** Path.mkdir(parents=True): fails (FileExistsError) when the directory exists. */
    method Mkdir(dir: Path) returns (created: bool)
      requires Valid()
      modifies this
      ensures Valid()
      ensures created == (dir !in old(fs))
      ensures created ==> fs == old(fs) + Lineage(dir) && trace == old(trace) + [MakeDirs(dir)]
      ensures !created ==> fs == old(fs) && trace == old(trace)
      ensures links == old(links)
    {
      created := dir !in fs;
      if created {
        fs := fs + Lineage(dir);
        trace := trace + [MakeDirs(dir)];
      }
    }

    /** Path.symlink_to: fails (FileExistsError) when the link path exists. */
    method SymlinkTo(link: Path, target: Path) returns (created: bool)
      requires Valid()
      modifies this
      ensures Valid()
      ensures created == (link !in old(fs))
      ensures link in old(links) ==> !created
      ensures created ==> fs == old(fs) + {link} && links == old(links)[link := target]
                          && trace == old(trace) + [Symlink(link, target)]
      ensures !created ==> fs == old(fs) && links == old(links) && trace == old(trace)
    {
      created := link !in fs;
      if created {
        fs := fs + {link};
        links := links[link := target];
        trace := trace + [Symlink(link, target)];
      }
    }

    /** A template generator: writes dir/<file> from the context, or only shows it in dry-run. */
    method RenderTemplate(template: Template, dir: Path, context: map<string, string>, dryRun: bool)
      requires Valid()
      modifies this
      ensures Valid()
      ensures trace == old(trace) + [Render(template, dir, context, dryRun)]
      ensures fs == if dryRun then old(fs) else old(fs) + {Child(dir, FileName(template))}
      ensures links == old(links)
    {
      if !dryRun {
        fs := fs + {Child(dir, FileName(template))};
      }
      trace := trace + [Render(template, dir, context, dryRun)];
    }
  }
}
