/**
 * Level 1, the simulated Docker terminal: a session holding pulled images,
 * containers, three task flags, the printed history and a hint cursor; one
 * submitted line is trimmed and dispatched over a fixed, ordered list of
 * commands.
 */
module Level1 {
  import opened Common
  import opened JsText
  import OnceGuard
  import ProgressStore

  // ---- texts ----

  const Banner := "DevOps Escape Room — Level 1 (Docker)\nType 'help' for available commands."

  const HelpMessage :=
    "Available commands:\n"
    + "  help                Show this help\n"
    + "  clear               Clear terminal\n"
    + "  hint                Show a contextual hint\n"
    + "  docker images       List pulled images\n"
    + "  docker pull <img>   Pull an image (e.g. docker pull nginx)\n"
    + "  docker run --name <name> -p <host:cont> <image>\n"
    + "  docker ps           List running containers\n"
    + "  docker logs <name>  Show container logs"

  const Hints: seq<string> := [
    "Hint #1: תתחילי עם docker pull nginx",
    "Hint #2: הריצי קונטיינר: docker run --name web -p 8080:80 nginx",
    "Hint #3: עכשיו הסתכלי בלוגים: docker logs web"
  ]

  const NoImages := "REPOSITORY\tTAG\n<none>\t\t<none>"
  const NoContainers := "CONTAINER ID   IMAGE   STATUS\n<none>"

  /** The three log lines of a started container; `now` is the wall-clock time of day. */
  function StartLogs(name: string, image: string, now: string): seq<string>
  {
    ["[" + now + "] Starting " + name + " from " + image, "App listening on 0.0.0.0:80", "💡 flag{docker-stage-1-ok}"]
  }

  // ---- the session ----

  datatype Container = Container(image: string, ports: string, running: bool, logs: seq<string>)

  /**
   * One entry of the printed history. The entries stay symbolic in the
   * session; `Render` gives the exact text each one prints.
   */
  datatype Entry =
    | BannerText
    | Echo(line: string)
    | HelpText
    | HintText(index: nat)
    | ImagesTable(images: seq<string>)
    | MissingImage
    | Pulling(image: string)
    | ContainersTable(names: seq<string>, containers: map<string, Container>)
    | RunUsage
    | NoSuchImage(image: string)
    | Started(name: string, ports: string)
    | LogsUsage
    | NoSuchContainer(name: string)
    | LogLines(lines: seq<string>)
    | NotFound(line: string)

  /**
   * The local state of the page. `images` and `names` are the keys of the
   * `images` and `containers` objects in insertion order (their values are
   * always `true` and the containers).
   */
  datatype Session = Session(
    images: seq<string>,
    containers: map<string, Container>,
    names: seq<string>,
    pulled: bool,
    ran: bool,
    sawLogs: bool,
    history: seq<Entry>,
    hintStep: nat)

  const Initial := Session([], map[], [], false, false, false, [BannerText], 0)

  /** `state.pulled && state.ran && state.sawLogs` */
  predicate Done(s: Session) { s.pulled && s.ran && s.sawLogs }

  /** The canonical run of the level: container `web`, ports `8080:80`, image `nginx`. */
  predicate Canonical(name: string, ports: string, image: string)
  {
    name == "web" && ports == "8080:80" && image == "nginx"
  }

  /**
   * What every reachable session satisfies: key lists without repeats that
   * match the objects, containers only from pulled images and all running,
   * the flags backed by the objects they imply, the hint cursor in range.
   */
  ghost predicate WellFormed(s: Session)
  {
    && Distinct(s.images)
    && Distinct(s.names)
    && (forall n :: n in s.names <==> n in s.containers)
    && (forall n :: n in s.containers ==> s.containers[n].image in s.images && s.containers[n].running)
    && (s.pulled ==> "nginx" in s.images)
    && (s.ran ==> "nginx" in s.images && "web" in s.containers)
    && s.hintStep < |Hints|
  }

  /** The result of one step: the new session and the task reported to the server, if any. */
  datatype Outcome = Outcome(after: Session, task: Option<string>)

  /** `print(text)` */
  function Print(s: Session, e: Entry): Session { s.(history := s.history + [e]) }

  // ---- parsing ----

  datatype Command =
    | Help
    | Clear
    | Hint
    | ListImages
    | Pull(pulled: Option<string>)
    | ListContainers
    | Run(name: Option<string>, ports: Option<string>, image: string)
    | Logs(target: Option<string>)
    | Unknown

  /** The dispatch of `handleSubmit`, in its order: three words, `docker images`, then the docker prefixes. */
  function Parse(line: string): (c: Command)
    ensures line == "docker images" ==> c == ListImages
    ensures line == "docker ps" ==> c == ListContainers
  {
    if line == "help" then Help
    else if line == "clear" then Clear
    else if line == "hint" then Hint
    else if line == "docker images" then ListImages
    else if StartsWith(line, "docker pull") then Pull(Arg(Split(line), 2))
    else if line == "docker ps" then ListContainers
    else if StartsWith(line, "docker run") then Run(Capture(NameFlag, line), Capture(PortFlag, line), Last(Split(line)))
    else if StartsWith(line, "docker logs") then Logs(Arg(Split(line), 2))
    else Unknown
  }

  // ---- what the entries print ----

  /** `docker images`: one `<name>\tlatest` row per key of `images`, in `Object.keys` order. */
  function ImageRows(keys: seq<string>): (rows: seq<string>)
    ensures |rows| == |keys|
    ensures forall i :: 0 <= i < |keys| ==> rows[i] == keys[i] + "\tlatest"
  {
    if keys == [] then [] else [keys[0] + "\tlatest"] + ImageRows(keys[1..])
  }

  /**
   * `docker ps`: the first 12 characters of the name, the image and the
   * status of each container. Every key is a container's in a well-formed
   * session; a key without one would print nothing.
   */
  function ContainerRows(keys: seq<string>, containers: map<string, Container>): (rows: seq<string>)
    ensures (forall k :: k in keys ==> k in containers) ==> |rows| == |keys|
    ensures (forall k :: k in keys ==> k in containers) ==>
      forall i :: 0 <= i < |keys| ==>
        rows[i] == keys[i][..Min(12, |keys[i]|)] + "   " + containers[keys[i]].image + "   "
                   + (if containers[keys[i]].running then "Up" else "Exited")
  {
    if keys == [] then []
    else if keys[0] !in containers then ContainerRows(keys[1..], containers)
    else
      var c := containers[keys[0]];
      [keys[0][..Min(12, |keys[0]|)] + "   " + c.image + "   " + (if c.running then "Up" else "Exited")]
        + ContainerRows(keys[1..], containers)
  }

  /** The text an entry prints. */
  function Render(e: Entry): string
  {
    match e
    case BannerText => Banner
    case Echo(line) => "$ " + line
    case HelpText => HelpMessage
    case HintText(i) => Hints[Min(i, |Hints| - 1)]
    case ImagesTable(images) =>
      var keys := ObjectKeys(images);
      if keys == [] then NoImages else Join(ImageRows(keys), "\n")
    case MissingImage => "Error: missing image name. Try: docker pull nginx"
    case Pulling(image) => "Pulling " + image + "... done"
    case ContainersTable(names, containers) =>
      var keys := ObjectKeys(names);
      if keys == [] then NoContainers else Join(ContainerRows(keys, containers), "\n")
    case RunUsage => "Usage: docker run --name web -p 8080:80 nginx"
    case NoSuchImage(image) => "Unable to find image '" + image + "'. Try: docker pull " + image
    case Started(name, ports) => "Started container '" + name + "' (ports " + ports + ")"
    case LogsUsage => "Usage: docker logs <name>"
    case NoSuchContainer(name) => "No such container: " + name
    case LogLines(lines) => Join(lines, "\n")
    case NotFound(line) => "Command not found: " + line + "\nType 'help' for help."
  }

  /** The terminal as displayed: `history.join("\n")`. */
  function Screen(s: Session): string
  {
    Join(seq(|s.history|, i requires 0 <= i < |s.history| => Render(s.history[i])), "\n")
  }

  // ---- the commands ----

  /** `hint`: prints the hint at the cursor, which then advances and stops at the last hint. */
  function HintStep(s: Session): (t: Session)
  {
    Print(s, HintText(s.hintStep)).(hintStep := Min(s.hintStep + 1, |Hints| - 1))
  }

  /** `docker pull <image>` */
  function PullStep(s: Session, image: Option<string>): Outcome
  {
    match image
    case None => Outcome(Print(s, MissingImage), None)
    case Some(img) =>
      var t := s.(images := AddKey(s.images, img), pulled := s.pulled || img == "nginx");
      Outcome(Print(t, Pulling(img)), if img == "nginx" then Some("pull") else None)
  }

  /**
   * `docker run` once the name and ports are captured; `found` is the
   * outcome of the image lookup `state.images[image]`.
   */
  function StartContainer(s: Session, name: string, ports: string, image: string, now: string, found: bool): Outcome
  {
    if !found then Outcome(Print(s, NoSuchImage(image)), None)
    else
      var t := s.(containers := s.containers[name := Container(image, ports, true, StartLogs(name, image, now))],
                  names := AddKey(s.names, name),
                  ran := s.ran || Canonical(name, ports, image));
      Outcome(Print(t, Started(name, ports)), if Canonical(name, ports, image) then Some("run") else None)
  }

  /** `docker run --name <name> -p <host:cont> <image>` */
  function RunStep(s: Session, name: Option<string>, ports: Option<string>, image: string, now: string): Outcome
  {
    if name.None? || ports.None? || image == "" then Outcome(Print(s, RunUsage), None)
    else StartContainer(s, name.value, ports.value, image, now, image in s.images)
  }

  /** `docker logs <name>` */
  function LogsStep(s: Session, name: Option<string>): Outcome
  {
    match name
    case None => Outcome(Print(s, LogsUsage), None)
    case Some(n) =>
      if n !in s.containers then Outcome(Print(s, NoSuchContainer(n)), None)
      else Outcome(Print(s.(sawLogs := true), LogLines(s.containers[n].logs)), Some("logs"))
  }

  /** The command `cmd` parsed from the non-empty trimmed `line`, after its echo is printed. */
  function Exec(s: Session, line: string, cmd: Command, now: string): Outcome
  {
    match cmd
    case Help => Outcome(Print(s, HelpText), None)
    case Clear => Outcome(s.(history := []), None)
    case Hint => Outcome(HintStep(s), None)
    case ListImages => Outcome(Print(s, ImagesTable(s.images)), None)
    case Pull(image) => PullStep(s, image)
    case ListContainers => Outcome(Print(s, ContainersTable(s.names, s.containers)), None)
    case Run(name, ports, image) => RunStep(s, name, ports, image, now)
    case Logs(name) => LogsStep(s, name)
    case Unknown => Outcome(Print(s, NotFound(line)), None)
  }

  /** `handleSubmit` on the text of the input box. */
  function Next(s: Session, input: string, now: string): Outcome
  {
    var line := Trim(input);
    if line == [] then Outcome(s, None)
    else Exec(Print(s, Echo(line)), line, Parse(line), now)
  }

  /** The container `web` that the server-side tasks `run` stands for, started at `now`. */
  function WebContainer(now: string): Container
  {
    Container("nginx", "8080:80", true, StartLogs("web", "nginx", now))
  }

  /** The local half of `updateTask(task, completed)`, applied once the request was sent. */
  function ApplyTask(s: Session, task: string, completed: bool, now: string): Session
  {
    if !completed then s
    else if task == "pull" then s.(pulled := true, images := AddKey(s.images, "nginx"))
    else if task == "run" then
      s.(images := AddKey(s.images, "nginx"), ran := true,
         containers := s.containers["web" := WebContainer(now)],
         names := AddKey(s.names, "web"))
    else if task == "logs" then s.(sawLogs := true)
    else s
  }

  /**
   * The state rebuilt from the server's level-1 tasks on load: it replaces
   * images, containers and flags; history and the hint cursor stay.
   */
  function Reconstruct(s: Session, tasks: map<string, bool>, now: string): Session
  {
    var pulled := "pull" in tasks && tasks["pull"];
    var ran := "run" in tasks && tasks["run"];
    var sawLogs := "logs" in tasks && tasks["logs"];
    s.(images := if pulled || ran then ["nginx"] else [],
       containers := if ran then map["web" := WebContainer(now)] else map[],
       names := if ran then ["web"] else [],
       pulled := pulled, ran := ran, sawLogs := sawLogs)
  }

  /** `!!data?.tasks?.[task]`: the server's level-1 tasks mark `task` done. */
  predicate ServerSet(tasks: map<string, bool>, task: string) { task in tasks && tasks[task] }

  /**
   * The load merged into the session with OR semantics: each task the
   * server marks done is applied as `updateTask` applies it locally, and
   * nothing already set is cleared.
   */
  function Merged(s: Session, tasks: map<string, bool>, now: string): Session
  {
    var t1 := ApplyTask(s, "pull", ServerSet(tasks, "pull"), now);
    var t2 := ApplyTask(t1, "run", ServerSet(tasks, "run"), now);
    ApplyTask(t2, "logs", ServerSet(tasks, "logs"), now)
  }

  // ---- what the terminal promises ----

  /** A line that is empty after trimming prints nothing and changes nothing. */
  lemma BlankInputIsIgnored(s: Session, input: string, now: string)
    requires forall k :: 0 <= k < |input| ==> IsSpace(input[k])
    ensures Next(s, input, now) == Outcome(s, None)
  {
  }

  /**
   * Any other line is echoed as `$ <line>` and followed by exactly one
   * printed entry, except `clear`, which empties the history.
   */
  lemma NonBlankInputIsEchoed(s: Session, input: string, now: string)
    requires Trim(input) != []
    ensures var after := Next(s, input, now).after;
      if Parse(Trim(input)) == Clear then after.history == []
      else |after.history| == |s.history| + 2 && after.history[..|s.history| + 1] == s.history + [Echo(Trim(input))]
  {
    var line := Trim(input);
    ExecPrintsOnce(Print(s, Echo(line)), line, Parse(line), now);
  }

  /** Every command but `clear` appends exactly one entry to the history. */
  lemma ExecPrintsOnce(s: Session, line: string, cmd: Command, now: string)
    ensures var after := Exec(s, line, cmd, now).after;
      if cmd == Clear then after.history == []
      else |after.history| == |s.history| + 1 && after.history[..|s.history|] == s.history
  {
    match cmd
    case Help =>
    case Clear =>
    case Hint =>
    case ListImages =>
    case Pull(image) =>
    case ListContainers =>
    case Run(name, ports, image) =>
    case Logs(name) =>
    case Unknown =>
  }

  /** The exact commands are matched before the prefixes; whatever matches nothing is unknown. */
  lemma DispatchOrder(line: string)
    ensures StartsWith(line, "docker pull") ==> Parse(line).Pull?
    ensures StartsWith(line, "docker run") ==> Parse(line).Run?
    ensures StartsWith(line, "docker logs") ==> Parse(line).Logs?
    ensures Parse(line) == Unknown <==>
      line !in {"help", "clear", "hint", "docker images", "docker ps"}
      && !StartsWith(line, "docker pull") && !StartsWith(line, "docker run") && !StartsWith(line, "docker logs")
  {
    if StartsWith(line, "docker pull") {
      PrefixChar(line, "docker pull", 7);
    }
    if StartsWith(line, "docker run") {
      PrefixChar(line, "docker run", 7);
    }
    if StartsWith(line, "docker logs") {
      PrefixChar(line, "docker logs", 7);
    }
  }

  /** A line that starts with `docker pull` pulls the image named by its third word. */
  lemma DispatchPull(line: string)
    requires StartsWith(line, "docker pull")
    ensures Parse(line) == Pull(Arg(Split(line), 2))
  {
    PrefixChar(line, "docker pull", 7);
    assert line !in {"help", "clear", "hint", "docker images"};
  }

  /** A line that starts with `docker logs` reads the logs of the container named by its third word. */
  lemma DispatchLogs(line: string)
    requires StartsWith(line, "docker logs")
    ensures Parse(line) == Logs(Arg(Split(line), 2))
  {
    PrefixChar(line, "docker logs", 7);
    PrefixChar(line, "docker logs", 8);
    assert line !in {"help", "clear", "hint", "docker images", "docker ps"};
    assert !StartsWith(line, "docker pull") && !StartsWith(line, "docker run");
  }

  /** A line that starts with `docker run` runs what the two patterns capture and its last word. */
  lemma DispatchRun(line: string)
    requires StartsWith(line, "docker run")
    ensures Parse(line) == Run(Capture(NameFlag, line), Capture(PortFlag, line), Last(Split(line)))
  {
    PrefixChar(line, "docker run", 7);
    assert line !in {"help", "clear", "hint", "docker images", "docker ps"};
    assert !StartsWith(line, "docker pull");
  }

  /** A line that starts with a prefix agrees with it at each of its positions. */
  lemma PrefixChar(line: string, prefix: string, i: nat)
    requires StartsWith(line, prefix) && i < |prefix|
    ensures line[i] == prefix[i]
  {
    assert line[..|prefix|][i] == prefix[i];
  }

  /** An unknown line is echoed, answered with the not-found message, and changes nothing else. */
  lemma UnknownCommandChangesNothing(s: Session, input: string, now: string)
    requires Trim(input) != [] && Parse(Trim(input)) == Unknown
    ensures Next(s, input, now) == Outcome(s.(history := s.history + [Echo(Trim(input)), NotFound(Trim(input))]), None)
  {
  }

  /** `hint` prints the hint at the cursor; the cursor then moves on by one and stops at the last hint. */
  lemma HintSaturates(s: Session)
    requires s.hintStep < |Hints|
    ensures Render(HintStep(s).history[|s.history|]) == Hints[s.hintStep]
    ensures HintStep(s).hintStep == if s.hintStep + 1 < |Hints| then s.hintStep + 1 else |Hints| - 1
    ensures s.hintStep <= HintStep(s).hintStep < |Hints|
    ensures HintStep(s) == s.(history := s.history + [HintText(s.hintStep)], hintStep := HintStep(s).hintStep)
  {
  }

  /**
   * `docker pull` without an image only prints the error. Otherwise the
   * image is added once to `images`, `pulled` becomes true exactly for
   * `nginx`, and `nginx` is reported to the server.
   */
  lemma PullOutcome(s: Session, image: Option<string>)
    ensures image.None? ==> PullStep(s, image) == Outcome(s.(history := s.history + [MissingImage]), None)
    ensures image.Some? ==> var o := PullStep(s, image);
      && (forall i :: i in o.after.images <==> i in s.images || i == image.value)
      && (Distinct(s.images) ==> Distinct(o.after.images))
      && o.after.pulled == (s.pulled || image.value == "nginx")
      && o.after.containers == s.containers && o.after.ran == s.ran && o.after.sawLogs == s.sawLogs
      && (o.task.Some? <==> image.value == "nginx")
    ensures image.Some? ==> var img := image.value;
      PullStep(s, image) == Outcome(
        s.(images := AddKey(s.images, img), pulled := s.pulled || img == "nginx", history := s.history + [Pulling(img)]),
        if img == "nginx" then Some("pull") else None)
  {
  }

  /**
   * `docker run` leaves the containers as they are unless both flags are
   * captured and the image was pulled; then it starts exactly the named
   * container, replacing any of that name, and sets `ran` only for the
   * canonical run.
   */
  lemma RunOutcome(s: Session, name: Option<string>, ports: Option<string>, image: string, now: string)
    ensures var o := RunStep(s, name, ports, image, now);
      if name.None? || ports.None? || image == "" then o == Outcome(s.(history := s.history + [RunUsage]), None)
      else if image !in s.images then o == Outcome(s.(history := s.history + [NoSuchImage(image)]), None)
      else
        && o.after.containers.Keys == s.containers.Keys + {name.value}
        && o.after.containers[name.value] == Container(image, ports.value, true, StartLogs(name.value, image, now))
        && (forall n :: n in s.containers && n != name.value ==> o.after.containers[n] == s.containers[n])
        && o.after.ran == (s.ran || Canonical(name.value, ports.value, image))
        && (o.task.Some? <==> Canonical(name.value, ports.value, image))
        && o.after.images == s.images && o.after.pulled == s.pulled && o.after.sawLogs == s.sawLogs
        && o.after.names == AddKey(s.names, name.value) && o.after.hintStep == s.hintStep
        && o.after.history == s.history + [Started(name.value, ports.value)]
        && o.task == (if Canonical(name.value, ports.value, image) then Some("run") else None)
  {
  }

  /**
   * `docker logs` prints the usage without a name and "No such container"
   * for an unknown one, both without any other change; for a container it
   * prints its log lines and sets `sawLogs`.
   */
  lemma LogsOutcome(s: Session, name: Option<string>)
    ensures var o := LogsStep(s, name);
      if name.None? then o == Outcome(s.(history := s.history + [LogsUsage]), None)
      else if name.value !in s.containers then o == Outcome(s.(history := s.history + [NoSuchContainer(name.value)]), None)
      else (o.after == s.(sawLogs := true, history := s.history + [LogLines(s.containers[name.value].logs)])
            && o.task == Some("logs"))
  {
  }

  /** `sawLogs` is set and `logs` reported only for a container that exists. */
  lemma LogsNeedContainer(s: Session, name: Option<string>)
    ensures LogsStep(s, name).task.Some? || (LogsStep(s, name).after.sawLogs && !s.sawLogs)
      ==> name.Some? && name.value in s.containers
  {
  }

  /** A container starts only from an image that was pulled. */
  lemma RunNeedsPulledImage(s: Session, name: Option<string>, ports: Option<string>, image: string, now: string)
    requires forall n :: n in s.containers ==> s.containers[n].image in s.images
    ensures var after := RunStep(s, name, ports, image, now).after;
      forall n :: n in after.containers ==> after.containers[n].image in after.images
  {
  }

  lemma PrintWellFormed(s: Session, e: Entry)
    requires WellFormed(s)
    ensures WellFormed(Print(s, e))
  {
  }

  lemma PullWellFormed(s: Session, image: Option<string>)
    requires WellFormed(s)
    ensures WellFormed(PullStep(s, image).after)
  {
    if image.Some? {
      var t := PullStep(s, image).after;
      assert forall i :: i in s.images ==> i in t.images;
    }
  }

  lemma RunWellFormed(s: Session, name: Option<string>, ports: Option<string>, image: string, now: string)
    requires WellFormed(s)
    ensures WellFormed(RunStep(s, name, ports, image, now).after)
  {
    if !(name.None? || ports.None? || image == "") && image in s.images {
      var t := RunStep(s, name, ports, image, now).after;
      assert forall n :: n in t.names <==> n in s.names || n == name.value;
      RunNeedsPulledImage(s, name, ports, image, now);
    }
  }

  lemma LogsWellFormed(s: Session, name: Option<string>)
    requires WellFormed(s)
    ensures WellFormed(LogsStep(s, name).after)
  {
  }

  /** Every command keeps the session well formed. */
  lemma ExecWellFormed(s: Session, line: string, cmd: Command, now: string)
    requires WellFormed(s)
    ensures WellFormed(Exec(s, line, cmd, now).after)
  {
    match cmd
    case Help => PrintWellFormed(s, HelpText);
    case Clear =>
    case Hint => PrintWellFormed(s, HintText(s.hintStep));
    case ListImages => PrintWellFormed(s, ImagesTable(s.images));
    case Pull(image) => PullWellFormed(s, image);
    case ListContainers => PrintWellFormed(s, ContainersTable(s.names, s.containers));
    case Run(name, ports, image) => RunWellFormed(s, name, ports, image, now);
    case Logs(name) => LogsWellFormed(s, name);
    case Unknown => PrintWellFormed(s, NotFound(line));
  }

  /** Every step keeps the session well formed. */
  lemma NextWellFormed(s: Session, input: string, now: string)
    requires WellFormed(s)
    ensures WellFormed(Next(s, input, now).after)
  {
    var line := Trim(input);
    if line != [] {
      PrintWellFormed(s, Echo(line));
      ExecWellFormed(Print(s, Echo(line)), line, Parse(line), now);
    }
  }

  /** No command lowers a task flag. */
  lemma ExecFlagsMonotone(s: Session, line: string, cmd: Command, now: string)
    ensures var after := Exec(s, line, cmd, now).after;
      (s.pulled ==> after.pulled) && (s.ran ==> after.ran) && (s.sawLogs ==> after.sawLogs)
  {
    match cmd
    case Help =>
    case Clear =>
    case Hint =>
    case ListImages =>
    case Pull(image) =>
    case ListContainers =>
    case Run(name, ports, image) =>
    case Logs(name) =>
    case Unknown =>
  }

  /** The task flags never go back to false. */
  lemma FlagsMonotone(s: Session, input: string, now: string)
    ensures var after := Next(s, input, now).after;
      (s.pulled ==> after.pulled) && (s.ran ==> after.ran) && (s.sawLogs ==> after.sawLogs)
  {
    var line := Trim(input);
    if line != [] {
      ExecFlagsMonotone(Print(s, Echo(line)), line, Parse(line), now);
    }
  }

  /** Only the canonical run command sets `ran` or reports `run`. */
  lemma ExecRanOnlyByCanonicalRun(s: Session, line: string, cmd: Command, now: string)
    ensures var o := Exec(s, line, cmd, now);
      (!s.ran && o.after.ran) || o.task == Some("run") ==> cmd == Run(Some("web"), Some("8080:80"), "nginx")
  {
    match cmd
    case Help =>
    case Clear =>
    case Hint =>
    case ListImages =>
    case Pull(image) =>
    case ListContainers =>
    case Run(name, ports, image) =>
    case Logs(name) =>
    case Unknown =>
  }

  /** `ran` is set, and `run` reported, only by the canonical `docker run --name web -p 8080:80 nginx`. */
  lemma OnlyCanonicalRunSetsRan(s: Session, input: string, now: string)
    ensures var o := Next(s, input, now);
      (!s.ran && o.after.ran) || o.task == Some("run")
      ==> Trim(input) != [] && Parse(Trim(input)) == Run(Some("web"), Some("8080:80"), "nginx")
  {
    var line := Trim(input);
    if line != [] {
      ExecRanOnlyByCanonicalRun(Print(s, Echo(line)), line, Parse(line), now);
    }
  }

  /**
   * The local half of `updateTask` only raises flags and does nothing for
   * `completed == false`.
   */
  lemma ApplyTaskMonotone(s: Session, task: string, completed: bool, now: string)
    ensures !completed ==> ApplyTask(s, task, completed, now) == s
    ensures var t := ApplyTask(s, task, completed, now);
      (s.pulled ==> t.pulled) && (s.ran ==> t.ran) && (s.sawLogs ==> t.sawLogs)
  {
  }

  /** The local half of `updateTask` keeps the session well formed. */
  lemma ApplyTaskWellFormed(s: Session, task: string, completed: bool, now: string)
    requires WellFormed(s)
    ensures WellFormed(ApplyTask(s, task, completed, now))
  {
    var t := ApplyTask(s, task, completed, now);
    if completed && task == "run" {
      assert forall n :: n in t.names <==> n in s.names || n == "web";
      assert forall i :: i in s.images ==> i in t.images;
    } else if completed && task == "pull" {
      assert forall i :: i in s.images ==> i in t.images;
    }
  }

  /**
   * The task a command reports is already applied locally. The update that
   * follows the server's answer reads the clock again (`later`), so for
   * `run` it rewrites the first log line of `web`, and changes the session
   * exactly when the reading differs; for every other task it changes
   * nothing.
   */
  lemma ReportedTaskIsAlreadyApplied(s: Session, line: string, cmd: Command, now: string, later: string)
    ensures var o := Exec(s, line, cmd, now);
      o.task.Some? ==> ApplyTask(o.after, o.task.value, true, now) == o.after
    ensures var o := Exec(s, line, cmd, now);
      o.task.Some? && o.task.value != "run" ==> ApplyTask(o.after, o.task.value, true, later) == o.after
    ensures var o := Exec(s, line, cmd, now);
      o.task == Some("run") ==>
        "web" in o.after.containers &&
        ApplyTask(o.after, "run", true, later)
          == o.after.(containers := o.after.containers["web" := o.after.containers["web"].(logs := StartLogs("web", "nginx", later))]) &&
        (ApplyTask(o.after, "run", true, later) == o.after <==> later == now)
  {
    match cmd
    case Help =>
    case Clear =>
    case Hint =>
    case ListImages =>
    case Pull(image) =>
    case ListContainers =>
    case Run(name, ports, image) =>
      RunOutcome(s, name, ports, image, now);
      var o := RunStep(s, name, ports, image, now);
      if o.task == Some("run") {
        ReapplyRun(o.after, now, later);
      }
    case Logs(name) =>
    case Unknown =>
  }

  /**
   * `updateTask("run")` on a session that already runs `web` from `nginx`
   * rebuilds only `web`'s logs, from its own clock reading.
   */
  lemma ReapplyRun(u: Session, now: string, later: string)
    requires u.ran && "nginx" in u.images && "web" in u.names
    requires "web" in u.containers && u.containers["web"] == WebContainer(now)
    ensures ApplyTask(u, "run", true, later)
      == u.(containers := u.containers["web" := u.containers["web"].(logs := StartLogs("web", "nginx", later))])
    ensures ApplyTask(u, "run", true, later) == u <==> later == now
  {
    var t := ApplyTask(u, "run", true, later);
    if t == u {
      assert t.containers["web"] == WebContainer(later);
      StampInjective(now, later);
    }
  }

  /** The first log line determines the clock reading it was stamped with. */
  lemma StampInjective(a: string, b: string)
    requires StartLogs("web", "nginx", a)[0] == StartLogs("web", "nginx", b)[0]
    ensures a == b
  {
    var x, y := StartLogs("web", "nginx", a)[0], StartLogs("web", "nginx", b)[0];
    assert |a| == |x| - |"[] Starting web from nginx"| == |b|;
    assert a == x[1..1 + |a|];
    assert b == y[1..1 + |b|];
  }

  /** Whatever tasks the server returns, the state rebuilt from them is well formed. */
  lemma ReconstructWellFormed(s: Session, tasks: map<string, bool>, now: string)
    ensures s.hintStep < |Hints| ==> WellFormed(Reconstruct(s, tasks, now))
  {
  }

  /**
   * The state rebuilt on load follows the server's tasks, is well formed,
   * and after `run` holds `images["nginx"]` and `containers["web"]`.
   */
  lemma ReconstructMatchesServer(s: Session, db: ProgressStore.Db, playerId: string, now: string)
    requires s.hintStep < |Hints|
    ensures var h := ProgressStore.Stored(db, playerId, 1);
      var t := Reconstruct(s, ProgressStore.Progress(db, playerId, 1).tasks, now);
      && (t.pulled <==> ProgressStore.IsSet(h, "pull"))
      && (t.ran <==> ProgressStore.IsSet(h, "run"))
      && (t.sawLogs <==> ProgressStore.IsSet(h, "logs"))
      && (Done(t) <==> ProgressStore.IsSet(h, "pull") && ProgressStore.IsSet(h, "run") && ProgressStore.IsSet(h, "logs"))
      && WellFormed(t)
      && t.history == s.history && t.hintStep == s.hintStep
  {
    var tasks := ProgressStore.Progress(db, playerId, 1).tasks;
    assert "pull" in tasks && "run" in tasks && "logs" in tasks;
  }

  /**
   * As written, a load that answers after a local `docker pull nginx`, from
   * a server that has not stored `pull` yet, clears `pulled` again.
   */
  lemma LoadAsWrittenLowersPulled(now: string)
    ensures var s := Next(Initial, "docker pull nginx", now).after;
      s.pulled && !Reconstruct(s, map["pull" := false, "run" := false, "logs" := false, "validYaml" := false], now).pulled
  {
    TypedPull(Initial, now);
  }

  /**
   * As written, the load also wipes an image the server has no task for,
   * whatever the server answers and in whichever order: an image other than
   * `nginx` that the pull branch added is gone after the load, and no later
   * `updateTask` brings it back.
   */
  lemma LoadAsWrittenDropsOtherImages(s: Session, img: string, tasks: map<string, bool>, now: string,
                                      task: string, completed: bool, later: string)
    requires img != "nginx"
    ensures var p := PullStep(s, Some(img)).after;
      var r := Reconstruct(p, tasks, now);
      img in p.images && img !in r.images && img !in ApplyTask(r, task, completed, later).images
  {
  }

  /**
   * The merged load never lowers a flag: each flag ends up set exactly when
   * it was set locally or the server set it; the images already pulled, the
   * containers other than `web`, the history and the hint cursor stay.
   */
  lemma MergedKeepsFlags(s: Session, tasks: map<string, bool>, now: string)
    ensures var t := Merged(s, tasks, now);
      && (t.pulled <==> s.pulled || ServerSet(tasks, "pull"))
      && (t.ran <==> s.ran || ServerSet(tasks, "run"))
      && (t.sawLogs <==> s.sawLogs || ServerSet(tasks, "logs"))
      && (forall i :: i in s.images ==> i in t.images)
      && (forall n :: n in s.containers && n != "web" ==> n in t.containers && t.containers[n] == s.containers[n])
      && t.history == s.history && t.hintStep == s.hintStep
  {
    var t1 := ApplyTask(s, "pull", ServerSet(tasks, "pull"), now);
    var t2 := ApplyTask(t1, "run", ServerSet(tasks, "run"), now);
    assert t1.containers == s.containers && t1.ran == s.ran && t1.sawLogs == s.sawLogs;
    assert forall i :: i in s.images ==> i in t1.images;
    assert t2.pulled == t1.pulled && t2.sawLogs == t1.sawLogs;
    assert forall i :: i in t1.images ==> i in t2.images;
  }

  /** The merged load keeps the session well formed. */
  lemma MergedWellFormed(s: Session, tasks: map<string, bool>, now: string)
    ensures WellFormed(s) ==> WellFormed(Merged(s, tasks, now))
  {
    if WellFormed(s) {
      var t1 := ApplyTask(s, "pull", ServerSet(tasks, "pull"), now);
      var t2 := ApplyTask(t1, "run", ServerSet(tasks, "run"), now);
      ApplyTaskWellFormed(s, "pull", ServerSet(tasks, "pull"), now);
      ApplyTaskWellFormed(t1, "run", ServerSet(tasks, "run"), now);
      ApplyTaskWellFormed(t2, "logs", ServerSet(tasks, "logs"), now);
    }
  }

  /** On a session with nothing pulled, run or read, the merged load is the load as written. */
  lemma MergedOnFreshSession(s: Session, tasks: map<string, bool>, now: string)
    requires s.images == [] && s.containers == map[] && s.names == []
    requires !s.pulled && !s.ran && !s.sawLogs
    ensures Merged(s, tasks, now) == Reconstruct(s, tasks, now)
  {
    assert AddKey([], "nginx") == ["nginx"] && AddKey(["nginx"], "nginx") == ["nginx"];
    assert AddKey([], "web") == ["web"];
  }

  // ---- the lookups as written ----

  /** Members every plain JavaScript object inherits from `Object.prototype`; looking one up yields a truthy value. */
  const PrototypeNames: set<string> := {
    "constructor", "hasOwnProperty", "isPrototypeOf", "propertyIsEnumerable", "toLocaleString", "toString",
    "valueOf", "__proto__", "__defineGetter__", "__defineSetter__", "__lookupGetter__", "__lookupSetter__"
  }

  /** `docker run` as written: `state.images[image]` also finds the inherited members. */
  function RunStepAsWritten(s: Session, name: Option<string>, ports: Option<string>, image: string, now: string): Outcome
  {
    if name.None? || ports.None? || image == "" then Outcome(Print(s, RunUsage), None)
    else StartContainer(s, name.value, ports.value, image, now, image in s.images || image in PrototypeNames)
  }

  /**
   * `docker logs` as written: `state.containers[name]` also finds the
   * inherited members. `sawLogs` is set and `logs` reported before
   * `c.logs.join` throws on the inherited function, so nothing is printed.
   */
  function LogsStepAsWritten(s: Session, name: Option<string>): Outcome
  {
    match name
    case None => Outcome(Print(s, LogsUsage), None)
    case Some(n) =>
      if n in s.containers then Outcome(Print(s.(sawLogs := true), LogLines(s.containers[n].logs)), Some("logs"))
      else if n in PrototypeNames then Outcome(s.(sawLogs := true), Some("logs"))
      else Outcome(Print(s, NoSuchContainer(n)), None)
  }

  /** As written, `docker run --name web -p 8080:80 toString` starts a container from an image never pulled. */
  lemma RunAsWrittenStartsUnpulledImage(now: string)
    ensures var after := RunStepAsWritten(Initial, Some("web"), Some("8080:80"), "toString", now).after;
      "web" in after.containers && after.containers["web"].image !in after.images && !WellFormed(after)
  {
  }

  /** As written, `docker logs constructor` on a fresh terminal sets `sawLogs` and reports `logs`. */
  lemma LogsAsWrittenSeesNoContainer()
    ensures var o := LogsStepAsWritten(Initial, Some("constructor"));
      o.after.sawLogs && o.task == Some("logs") && "constructor" !in Initial.containers
  {
  }

  // ---- a whole playthrough ----

  /** A word the terminal splits out whole: non-empty and free of whitespace. */
  predicate IsWord(w: string)
  {
    w != [] && forall k :: 0 <= k < |w| ==> NotSpace(w[k])
  }

  /** The fixed words of the three commands hold no whitespace. */
  lemma CommandWords()
    ensures IsWord("docker") && IsWord("pull") && IsWord("logs") && IsWord("run")
    ensures IsWord("--name") && IsWord("-p")
  {
  }

  /** `docker pull <image>` read as words, and its prefix. */
  lemma PullShape(image: string)
    ensures var s := "docker pull " + image;
      && s == "docker" + " " + ("pull" + " " + image)
      && s[..11] == "docker pull" && |s| == 12 + |image|
  {
  }

  /** `docker pull <image>` splits into its three words. */
  lemma PullWords(image: string)
    requires IsWord(image)
    ensures Split("docker" + " " + ("pull" + " " + image)) == ["docker"] + (["pull"] + [image])
  {
    CommandWords();
    SplitSingle(image);
    SplitWord("pull", image);
    SplitWord("docker", "pull" + " " + image);
  }

  /** `docker pull <image>` pulls the image named by its third word. */
  lemma ParsePull(image: string)
    requires IsWord(image)
    ensures Trim("docker pull " + image) == "docker pull " + image
    ensures Parse("docker pull " + image) == Pull(Some(image))
  {
    var s := "docker pull " + image;
    PullShape(image);
    assert s[|s| - 1] == image[|image| - 1];
    TrimKeeps(s);
    PullWords(image);
    assert |Split(s)| == 3 && Split(s)[2] == image;
    DispatchPull(s);
  }

  /** `docker logs <name>` read as words, and its prefix. */
  lemma LogsShape(name: string)
    ensures var s := "docker logs " + name;
      && s == "docker" + " " + ("logs" + " " + name)
      && s[..11] == "docker logs" && |s| == 12 + |name|
  {
  }

  /** `docker logs <name>` splits into its three words. */
  lemma LogsWords(name: string)
    requires IsWord(name)
    ensures Split("docker" + " " + ("logs" + " " + name)) == ["docker"] + (["logs"] + [name])
  {
    CommandWords();
    SplitSingle(name);
    SplitWord("logs", name);
    SplitWord("docker", "logs" + " " + name);
  }

  /** `docker logs <name>` shows the logs of the container named by its third word. */
  lemma ParseLogs(name: string)
    requires IsWord(name)
    ensures Trim("docker logs " + name) == "docker logs " + name
    ensures Parse("docker logs " + name) == Logs(Some(name))
  {
    var s := "docker logs " + name;
    LogsShape(name);
    assert s[|s| - 1] == name[|name| - 1];
    TrimKeeps(s);
    LogsWords(name);
    assert |Split(s)| == 3 && Split(s)[2] == name;
    DispatchLogs(s);
  }

  /** The line `docker run --name <name> -p <ports> <image>`. */
  function RunCommand(name: string, ports: string, image: string): string
  {
    "docker run --name " + name + " -p " + ports + " " + image
  }

  /** Where the parts of a `docker run` line sit. */
  lemma RunCommandLayout(name: string, ports: string, image: string)
    ensures var s := RunCommand(name, ports, image);
      var p := 19 + |name|;
      && |s| == p + 4 + |ports| + |image|
      && s[..10] == "docker run"
      && s[..18] == "docker run --name "
      && s[18..18 + |name|] == name
      && s[18 + |name|] == ' ' && s[p] == '-' && s[p + 1] == 'p' && s[p + 2] == ' '
      && s[p + 3..p + 3 + |ports|] == ports
      && s[p + 3 + |ports|] == ' '
  {
  }

  /** `--name` matches at index 11 and reads the whole name. */
  lemma RunNameMatch(name: string, ports: string, image: string)
    requires CaptureShape(NameFlag, name)
    ensures MatchAt(NameFlag, RunCommand(name, ports, image), 11) == Some(name)
  {
    var s := RunCommand(name, ports, image);
    RunCommandLayout(name, ports, image);
    assert s[11..17] == s[..18][11..17];
    assert s[17] == s[..18][17];
    assert s[18] == name[0];
    MatchAtReads(NameFlag, s, 11, 18);
    NameGroupReads(s, 18, name);
  }

  /** `--name` first matches at index 11 and captures the whole name. */
  lemma RunNameCapture(name: string, ports: string, image: string)
    requires CaptureShape(NameFlag, name)
    ensures Capture(NameFlag, RunCommand(name, ports, image)) == Some(name)
  {
    var s := RunCommand(name, ports, image);
    RunCommandLayout(name, ports, image);
    forall m | 0 <= m < 11
      ensures MatchAt(NameFlag, s, m).None?
    {
      assert s[m] == s[..18][m];
      MismatchNoMatch(NameFlag, s, m, 0);
    }
    RunNameMatch(name, ports, image);
    CaptureAt(NameFlag, s, 11);
  }

  /** No `-p` match starts inside `docker run --name <name> `. */
  lemma RunNoEarlyPorts(name: string, ports: string, image: string)
    requires CaptureShape(NameFlag, name)
    ensures forall m :: 0 <= m < 19 + |name| ==> MatchAt(PortFlag, RunCommand(name, ports, image), m).None?
  {
    var s := RunCommand(name, ports, image);
    RunCommandLayout(name, ports, image);
    forall m | 0 <= m < 19 + |name|
      ensures MatchAt(PortFlag, s, m).None?
    {
      if m == 11 || m == 12 {
        assert s[m + 1] == s[..18][m + 1];
        MismatchNoMatch(PortFlag, s, m, 1);
      } else if m < 18 {
        assert s[m] == s[..18][m];
        MismatchNoMatch(PortFlag, s, m, 0);
      } else if m < 18 + |name| {
        NoPortsInName(name, ports, image, m);
      } else {
        MismatchNoMatch(PortFlag, s, m, 0);
      }
    }
  }

  /** No `-p` match starts inside the name, even where the name holds `-p`. */
  lemma NoPortsInName(name: string, ports: string, image: string, m: nat)
    requires CaptureShape(NameFlag, name) && 18 <= m < 18 + |name|
    ensures MatchAt(PortFlag, RunCommand(name, ports, image), m).None?
  {
    var s := RunCommand(name, ports, image);
    RunCommandLayout(name, ports, image);
    assert s[m] == name[m - 18];
    if s[m] != '-' {
      MismatchNoMatch(PortFlag, s, m, 0);
    } else if s[m + 1] != 'p' {
      MismatchNoMatch(PortFlag, s, m, 1);
    } else if m + 2 < 18 + |name| {
      // `-p` inside the name: another name character follows, not whitespace.
      assert s[m + 2] == name[m + 2 - 18];
      NoGapNoMatch(PortFlag, s, m);
    } else {
      // The name ends in `-p`: the whitespace after it runs into the `-` of the real flag.
      PortNeedsDigit(s, m, 19 + |name|);
    }
  }

  /** `-p` matches right after the name and reads the whole port mapping. */
  lemma RunPortsMatch(name: string, ports: string, image: string)
    requires CaptureShape(PortFlag, ports)
    ensures 19 + |name| <= |RunCommand(name, ports, image)|
    ensures MatchAt(PortFlag, RunCommand(name, ports, image), 19 + |name|) == Some(ports)
  {
    var s := RunCommand(name, ports, image);
    var p := 19 + |name|;
    RunCommandLayout(name, ports, image);
    assert s[p..p + 2] == "-p";
    assert s[p + 3] == ports[0] && IsDigit(ports[0]);
    MatchAtReads(PortFlag, s, p, p + 3);
    PortGroupReads(s, p + 3, ports);
  }

  /** `-p` first matches right after the name and captures the whole port mapping. */
  lemma RunPortsCapture(name: string, ports: string, image: string)
    requires CaptureShape(NameFlag, name) && CaptureShape(PortFlag, ports)
    ensures Capture(PortFlag, RunCommand(name, ports, image)) == Some(ports)
  {
    var s := RunCommand(name, ports, image);
    var k := 19 + |name|;
    RunNoEarlyPorts(name, ports, image);
    RunPortsMatch(name, ports, image);
    assert k <= |s| && MatchAt(PortFlag, s, k) == Some(ports);
    CaptureAt(PortFlag, s, k);
  }

  /** A `docker run` line read as words. */
  lemma RunShape(name: string, ports: string, image: string)
    ensures RunCommand(name, ports, image)
      == "docker" + " " + ("run" + " " + ("--name" + " " + (name + " " + ("-p" + " " + (ports + " " + image)))))
  {
  }

  /** A plain name and a port mapping hold no whitespace. */
  lemma RunArgsAreWords(name: string, ports: string)
    requires CaptureShape(NameFlag, name) && CaptureShape(PortFlag, ports)
    ensures IsWord(name) && IsWord(ports)
  {
    var c :| 0 < c < |ports| - 1 && ports[c] == ':'
      && (forall k :: 0 <= k < c ==> IsDigit(ports[k]))
      && (forall k :: c < k < |ports| ==> IsDigit(ports[k]));
  }

  /** A word put in front of a non-empty list of words does not change the last one. */
  lemma LastAfterFront(a: string, rest: seq<string>)
    requires rest != []
    ensures Last([a] + rest) == Last(rest)
  {
  }

  /** Putting a word and a space in front of a line keeps its last word. */
  lemma LastWordKept(a: string, b: string)
    requires forall k :: 0 <= k < |a| ==> NotSpace(a[k])
    requires b == [] || NotSpace(b[0])
    ensures Last(Split(a + " " + b)) == Last(Split(b))
  {
    SplitWord(a, b);
    LastAfterFront(a, Split(b));
  }

  /** The last word of a `docker run` line is the image. */
  lemma RunImageLast(name: string, ports: string, image: string)
    requires IsWord(name) && IsWord(ports) && IsWord(image)
    ensures Last(Split(RunCommand(name, ports, image))) == image
  {
    CommandWords();
    RunShape(name, ports, image);
    var t6 := ports + " " + image;
    var t5 := "-p" + " " + t6;
    var t4 := name + " " + t5;
    var t3 := "--name" + " " + t4;
    var t2 := "run" + " " + t3;
    SplitSingle(image);
    LastWordKept(ports, image);
    LastWordKept("-p", t6);
    LastWordKept(name, t5);
    LastWordKept("--name", t4);
    LastWordKept("run", t3);
    LastWordKept("docker", t2);
  }

  /** A `docker run` line ending in a word is its own trim. */
  lemma RunTrimmed(name: string, ports: string, image: string)
    requires IsWord(image)
    ensures Trim(RunCommand(name, ports, image)) == RunCommand(name, ports, image)
  {
    var s := RunCommand(name, ports, image);
    assert s[0] == 'd';
    assert s[|s| - 1] == image[|image| - 1];
    TrimKeeps(s);
  }

  /** `docker run --name <name> -p <ports> <image>` runs `image` as `name` with `ports`. */
  lemma ParseRun(name: string, ports: string, image: string)
    requires CaptureShape(NameFlag, name) && CaptureShape(PortFlag, ports) && IsWord(image)
    ensures Trim(RunCommand(name, ports, image)) == RunCommand(name, ports, image)
    ensures Parse(RunCommand(name, ports, image)) == Run(Some(name), Some(ports), image)
  {
    RunTrimmed(name, ports, image);
    RunCommandLayout(name, ports, image);
    RunNameCapture(name, ports, image);
    RunPortsCapture(name, ports, image);
    RunArgsAreWords(name, ports);
    RunImageLast(name, ports, image);
    DispatchRun(RunCommand(name, ports, image));
  }


  /** A non-empty line that is its own trim is echoed and then executed as the command it parses to. */
  lemma TypedLine(s: Session, line: string, cmd: Command, now: string)
    ensures line != [] && Trim(line) == line && Parse(line) == cmd ==>
      Next(s, line, now) == Exec(Print(s, Echo(line)), line, cmd, now)
  {
  }

  /** `docker pull nginx` is its own trim and pulls `nginx`. */
  lemma PullLineParses()
    ensures Trim("docker pull nginx") == "docker pull nginx"
    ensures Parse("docker pull nginx") == Pull(Some("nginx"))
  {
    assert "docker pull nginx" == "docker pull " + "nginx";
    assert IsWord("nginx");
    ParsePull("nginx");
  }

  /** Typing `docker pull nginx` echoes the line and pulls `nginx`. */
  lemma TypedPull(s: Session, now: string)
    ensures Next(s, "docker pull nginx", now) == PullStep(Print(s, Echo("docker pull nginx")), Some("nginx"))
  {
    PullLineParses();
    TypedLine(s, "docker pull nginx", Pull(Some("nginx")), now);
  }

  /** `docker run --name web -p 8080:80 nginx` is its own trim and runs `nginx` as `web` on `8080:80`. */
  lemma RunLineParses()
    ensures Trim("docker run --name web -p 8080:80 nginx") == "docker run --name web -p 8080:80 nginx"
    ensures Parse("docker run --name web -p 8080:80 nginx") == Run(Some("web"), Some("8080:80"), "nginx")
  {
    CanonicalRunLine();
    ParseRun("web", "8080:80", "nginx");
  }

  /** Typing `docker run --name web -p 8080:80 nginx` echoes the line and runs the canonical container. */
  lemma TypedRun(s: Session, now: string)
    ensures var line := "docker run --name web -p 8080:80 nginx";
      Next(s, line, now) == RunStep(Print(s, Echo(line)), Some("web"), Some("8080:80"), "nginx", now)
  {
    RunLineParses();
    TypedLine(s, "docker run --name web -p 8080:80 nginx", Run(Some("web"), Some("8080:80"), "nginx"), now);
  }

  /** The canonical run line is a `docker run` line with a plain name, a port mapping and an image. */
  lemma CanonicalRunLine()
    ensures "docker run --name web -p 8080:80 nginx" == RunCommand("web", "8080:80", "nginx")
    ensures IsWord("nginx") && CaptureShape(NameFlag, "web") && CaptureShape(PortFlag, "8080:80")
  {
    assert "8080:80"[4] == ':';
  }

  /** `docker logs web` is its own trim and reads the logs of `web`. */
  lemma LogsLineParses()
    ensures Trim("docker logs web") == "docker logs web"
    ensures Parse("docker logs web") == Logs(Some("web"))
  {
    assert "docker logs web" == "docker logs " + "web";
    assert IsWord("web");
    ParseLogs("web");
  }

  /** Typing `docker logs web` echoes the line and reads the logs of `web`. */
  lemma TypedLogs(s: Session, now: string)
    ensures Next(s, "docker logs web", now) == LogsStep(Print(s, Echo("docker logs web")), Some("web"))
  {
    LogsLineParses();
    TypedLine(s, "docker logs web", Logs(Some("web")), now);
  }

  /**
   * Typing `docker pull nginx`, `docker run --name web -p 8080:80 nginx`
   * and `docker logs web` into a fresh terminal reports the three tasks in
   * order and completes the level with the third line only.
   */
  lemma CanonicalPlaythrough(now: string)
    ensures var o1 := Next(Initial, "docker pull nginx", now);
      var o2 := Next(o1.after, "docker run --name web -p 8080:80 nginx", now);
      var o3 := Next(o2.after, "docker logs web", now);
      && o1.task == Some("pull") && o2.task == Some("run") && o3.task == Some("logs")
      && !Done(o2.after) && Done(o3.after)
  {
    TypedPull(Initial, now);
    var o1 := Next(Initial, "docker pull nginx", now);
    assert o1.task == Some("pull") && o1.after.pulled && "nginx" in o1.after.images;
    TypedRun(o1.after, now);
    var o2 := Next(o1.after, "docker run --name web -p 8080:80 nginx", now);
    assert o2.task == Some("run") && o2.after.ran && !o2.after.sawLogs && "web" in o2.after.containers;
    TypedLogs(o2.after, now);
  }

  /** `docker ps` is its own trim and lists the containers. */
  lemma PsLineParses()
    ensures Trim("docker ps") == "docker ps"
    ensures Parse("docker ps") == ListContainers
  {
    TrimKeeps("docker ps");
  }

  /** Typing `docker ps` echoes the line and prints the table of the containers. */
  lemma TypedPs(s: Session, now: string)
    ensures Next(s, "docker ps", now) == Outcome(Print(Print(s, Echo("docker ps")), ContainersTable(s.names, s.containers)), None)
  {
    PsLineParses();
    TypedLine(s, "docker ps", ListContainers, now);
  }

  /** The table of the canonical container alone is the one row `web   nginx   Up`. */
  lemma WebTableRow(now: string)
    ensures Render(ContainersTable(["web"], map["web" := WebContainer(now)])) == "web   nginx   Up"
  {
    WebKeys();
    WebRows(now);
  }

  /** `Object.keys` of an object holding only `web` is `["web"]`. */
  lemma WebKeys()
    ensures ObjectKeys(["web"]) == ["web"]
  {
    assert !IsDigit("web"[0]);
    ObjectKeysPlain(["web"]);
  }

  /** The row of the canonical container. */
  lemma WebRows(now: string)
    ensures ContainerRows(["web"], map["web" := WebContainer(now)]) == ["web   nginx   Up"]
  {
    var rows := ContainerRows(["web"], map["web" := WebContainer(now)]);
    assert "web"[..Min(12, 3)] == "web";
    assert |rows| == 1 && rows[0] == "web   nginx   Up";
  }

  /**
   * After `docker pull nginx` and the canonical run, typing `docker ps`
   * prints the table of exactly one container, `web`, running `nginx`.
   */
  lemma PsAfterCanonicalRun(now: string)
    ensures var o1 := Next(Initial, "docker pull nginx", now);
      var o2 := Next(o1.after, "docker run --name web -p 8080:80 nginx", now);
      var o := Next(o2.after, "docker ps", now);
      o == Outcome(Print(Print(o2.after, Echo("docker ps")), ContainersTable(["web"], map["web" := WebContainer(now)])), None)
  {
    TypedPull(Initial, now);
    var o1 := Next(Initial, "docker pull nginx", now);
    assert o1.after.names == [] && o1.after.containers == map[] && "nginx" in o1.after.images;
    TypedRun(o1.after, now);
    var o2 := Next(o1.after, "docker run --name web -p 8080:80 nginx", now);
    assert o2.after.names == ["web"] && o2.after.containers == map["web" := WebContainer(now)];
    TypedPs(o2.after, now);
  }

  // ---- the page ----

  /** The Level 1 page: its state, history, hint cursor and celebration flag, updated in place. */
  class Terminal {
    var images: seq<string>
    var containers: map<string, Container>
    var names: seq<string>
    var pulled: bool
    var ran: bool
    var sawLogs: bool
    var history: seq<Entry>
    var hintStep: nat
    var fired: bool

    function State(): Session
      reads this
    {
      Session(images, containers, names, pulled, ran, sawLogs, history, hintStep)
    }

    /** The page as first rendered: the banner, nothing pulled, nothing celebrated. */
    constructor ()
      ensures State() == Initial && !fired
      ensures WellFormed(State())
    {
      images, containers, names := [], map[], [];
      pulled, ran, sawLogs := false, false, false;
      history, hintStep := [BannerText], 0;
      fired := false;
    }

    /** `handleSubmit`: returns the task passed to `updateTask`, if any. */
    method Submit(input: string, now: string) returns (task: Option<string>)
      modifies this
      ensures State() == Next(old(State()), input, now).after
      ensures task == Next(old(State()), input, now).task
      ensures WellFormed(old(State())) ==> WellFormed(State())
      ensures fired == old(fired)
    {
      if WellFormed(State()) {
        NextWellFormed(State(), input, now);
      }
      var line := Trim(input);
      if line == [] {
        return None;
      }
      history := history + [Echo(line)];
      task := Execute(line, Parse(line), now);
    }

    /** The branch of `handleSubmit` that the dispatch chose, after the echo. */
    method Execute(line: string, cmd: Command, now: string) returns (task: Option<string>)
      modifies this
      ensures State() == Exec(old(State()), line, cmd, now).after
      ensures task == Exec(old(State()), line, cmd, now).task
      ensures fired == old(fired)
    {
      task := None;
      match cmd
      case Help =>
        history := history + [HelpText];
      case Clear =>
        history := [];
      case Hint =>
        history := history + [HintText(hintStep)];
        hintStep := Min(hintStep + 1, |Hints| - 1);
      case ListImages =>
        history := history + [ImagesTable(images)];
      case Pull(image) =>
        task := DockerPull(image);
      case ListContainers =>
        history := history + [ContainersTable(names, containers)];
      case Run(name, ports, image) =>
        task := DockerRun(name, ports, image, now);
      case Logs(name) =>
        task := DockerLogs(name);
      case Unknown =>
        history := history + [NotFound(line)];
    }

    method DockerPull(image: Option<string>) returns (task: Option<string>)
      modifies this
      ensures State() == PullStep(old(State()), image).after
      ensures task == PullStep(old(State()), image).task
      ensures fired == old(fired)
    {
      task := None;
      if image.None? {
        history := history + [MissingImage];
        return;
      }
      var img := image.value;
      images := AddKey(images, img);
      pulled := pulled || img == "nginx";
      if img == "nginx" {
        task := Some("pull");
      }
      history := history + [Pulling(img)];
    }

    method DockerRun(name: Option<string>, ports: Option<string>, image: string, now: string) returns (task: Option<string>)
      modifies this
      ensures State() == RunStep(old(State()), name, ports, image, now).after
      ensures task == RunStep(old(State()), name, ports, image, now).task
      ensures fired == old(fired)
    {
      task := None;
      if name.None? || ports.None? || image == "" {
        history := history + [RunUsage];
        return;
      }
      if image !in images {
        history := history + [NoSuchImage(image)];
        return;
      }
      var n, p := name.value, ports.value;
      containers := containers[n := Container(image, p, true, StartLogs(n, image, now))];
      names := AddKey(names, n);
      ran := ran || Canonical(n, p, image);
      if Canonical(n, p, image) {
        task := Some("run");
      }
      history := history + [Started(n, p)];
    }

    method DockerLogs(name: Option<string>) returns (task: Option<string>)
      modifies this
      ensures State() == LogsStep(old(State()), name).after
      ensures task == LogsStep(old(State()), name).task
      ensures fired == old(fired)
    {
      task := None;
      if name.None? {
        history := history + [LogsUsage];
        return;
      }
      var n := name.value;
      if n !in containers {
        history := history + [NoSuchContainer(n)];
        return;
      }
      sawLogs := true;
      task := Some("logs");
      history := history + [LogLines(containers[n].logs)];
    }

    /** The local update of `updateTask`; `sent` is false when the request failed. */
    method UpdateTask(task: string, completed: bool, sent: bool, now: string)
      modifies this
      ensures State() == if sent then ApplyTask(old(State()), task, completed, now) else old(State())
      ensures WellFormed(old(State())) ==> WellFormed(State())
      ensures fired == old(fired)
    {
      if WellFormed(State()) {
        ApplyTaskWellFormed(State(), task, completed, now);
      }
      if !sent {
        return;
      }
      // The three tests are exclusive: `task` names one task.
      if task == "pull" && completed {
        pulled := true;
        images := AddKey(images, "nginx");
      } else if task == "run" && completed {
        EnsureWeb(now);
      } else if task == "logs" && completed {
        sawLogs := true;
      }
    }

    /** `updateTask("run", true)` locally: the image `nginx` and the canonical container `web`. */
    method EnsureWeb(now: string)
      modifies this
      ensures State() == ApplyTask(old(State()), "run", true, now) && fired == old(fired)
    {
      images := AddKey(images, "nginx");
      ran := true;
      containers := containers["web" := WebContainer(now)];
      names := AddKey(names, "web");
    }

    /**
     * The load effect: the level-1 tasks the server returned, or None when
     * the request failed. The tasks are merged in, so a response that
     * arrives after a command never clears what the command set.
     */
    method LoadProgress(tasks: Option<map<string, bool>>, now: string)
      modifies this
      ensures State() == if tasks.Some? then Merged(old(State()), tasks.value, now) else old(State())
      ensures fired == old(fired)
      ensures old(WellFormed(State())) ==> WellFormed(State())
    {
      if tasks.None? {
        return;
      }
      var t := tasks.value;
      if ServerSet(t, "pull") {
        pulled := true;
        images := AddKey(images, "nginx");
      }
      if ServerSet(t, "run") {
        EnsureWeb(now);
      }
      if ServerSet(t, "logs") {
        sawLogs := true;
      }
      MergedWellFormed(old(State()), t, now);
    }

    /** The celebration effect, run whenever `done` changes: fires at most once per page. */
    method Celebrate() returns (fires: bool)
      modifies this
      ensures fires == OnceGuard.Check(Done(State()), old(fired)).fires
      ensures fired == OnceGuard.Check(Done(State()), old(fired)).firedAfter
      ensures State() == old(State())
    {
      if !Done(State()) || fired {
        return false;
      }
      fired := true;
      fires := true;
    }

    /** The Clear button. */
    method ClearHistory()
      modifies this
      ensures State() == old(State()).(history := []) && fired == old(fired)
    {
      history := [];
    }

    /** The Help button. */
    method ShowHelp()
      modifies this
      ensures State() == Print(old(State()), HelpText) && fired == old(fired)
    {
      history := history + [HelpText];
    }
  }
}
