/**
 * The ComfyUI + Triton + SageAttention installer (comfyui_triton_sageattention.py): the
 * per-platform handler rules (PyTorch index URL, Visual Studio override string, run-script
 * arguments, package filter), CUDA normalisation, the PyTorch compatibility decision, the
 * PyTorch package choice and the pre-built SageAttention wheel search.
 *
 * The three handler classes differ only in these rules, so the platform is a datatype that
 * the rules dispatch on. Command results (exit codes, captured output, whether `pip` succeeded)
 * are parameters.
 */
module Installer {
  import opened Wrappers
  import opened Text

  datatype Platform = Windows | Linux | MacOS

  // ---------------------------------------------------------------------------
  // get_pytorch_install_url (all three handlers)
  // ---------------------------------------------------------------------------

  const PytorchIndex: string := "https://download.pytorch.org/whl/"
  const CpuIndexUrl: string := PytorchIndex + "cpu"

  /** The wheel-index tag of a CUDA version: the version with its dots removed. */
  function CudaTag(cudaVersion: string): (tag: string)
    ensures '.' !in tag
  {
    Replace(cudaVersion, '.', "")
  }

  /** `get_pytorch_install_url`: the macOS handler always answers the CPU index. */
  function PytorchInstallUrl(platform: Platform, cudaVersion: string): (url: string)
    ensures StartsWith(url, PytorchIndex)
  {
    if platform == MacOS || cudaVersion == "cpu" then CpuIndexUrl
    else PytorchIndex + "cu" + CudaTag(cudaVersion)
  }

  /** The CPU index is chosen exactly for macOS and for the "cpu" version. */
  lemma CpuIndexExactly(platform: Platform, cudaVersion: string)
    ensures PytorchInstallUrl(platform, cudaVersion) == CpuIndexUrl <==> platform == MacOS || cudaVersion == "cpu"
  {
    if !(platform == MacOS || cudaVersion == "cpu") {
      var url := PytorchInstallUrl(platform, cudaVersion);
      assert url[|PytorchIndex| + 1] == 'u';
      assert CpuIndexUrl[|PytorchIndex| + 1] == 'p';
    }
  }

  /** A "major.minor" CUDA version gives the tag major followed by minor ("12.8" gives cu128). */
  lemma CudaUrlOfVersion(platform: Platform, major: string, minor: string)
    requires platform != MacOS && '.' !in major && '.' !in minor
    requires major + "." + minor != "cpu"
    ensures PytorchInstallUrl(platform, major + "." + minor) == PytorchIndex + "cu" + major + minor
  {
    assert major + "." + minor == major + ['.'] + minor;
    ReplaceDropOne(major, minor, '.');
  }

  // ---------------------------------------------------------------------------
  // WindowsHandler._build_override_string
  // ---------------------------------------------------------------------------

  /** The Visual Studio components the Windows handler installs, in order. */
  const BuildToolComponents: seq<string> := [
    "Microsoft.VisualStudio.Component.VC.Tools.x86.x64",
    "Microsoft.VisualStudio.Component.Windows10SDK.20348"
  ]

  function AddFlags(components: seq<string>): (r: seq<string>)
    ensures |r| == |components|
    ensures forall i :: 0 <= i < |r| ==> r[i] == "--add " + components[i]
  {
    seq(|components|, i requires 0 <= i < |components| => "--add " + components[i])
  }

  /** `_build_override_string` over a list of components. */
  function OverrideString(components: seq<string>): (r: string)
    ensures StartsWith(r, "--quiet --wait --norestart ")
  {
    "--quiet --wait --norestart " + Join(AddFlags(components), " ")
  }

  /** The words `tag item` pairs split into: the tag before each item, in order. */
  function TagWords(tag: string, items: seq<string>): (r: seq<string>)
    ensures |r| == 2 * |items|
    ensures forall i :: 0 <= i < |r| ==> r[i] == if i % 2 == 0 then tag else items[i / 2]
  {
    if items == [] then []
    else [tag, items[0]] + TagWords(tag, items[1..])
  }

  /** Joining `tag item` pairs with the separator and splitting again yields tag and item words. */
  lemma {:induction false} TaggedWords(tag: string, items: seq<string>, sep: char, pairs: seq<string>)
    requires items != [] && sep !in tag
    requires forall i :: 0 <= i < |items| ==> sep !in items[i]
    requires |pairs| == |items| && forall i :: 0 <= i < |items| ==> pairs[i] == tag + [sep] + items[i]
    ensures Split(Join(pairs, [sep]), sep) == TagWords(tag, items)
    decreases |items|
  {
    if |items| == 1 {
      SplitPair(tag, items[0], sep);
    } else {
      var rest := Join(pairs[1..], [sep]);
      TaggedTail(tag, items, sep, pairs);
      TaggedWords(tag, items[1..], sep, pairs[1..]);
      assert Join(pairs, [sep]) == pairs[0] + [sep] + rest;
      TaggedHead(pairs[0], tag, items[0], rest, sep);
      assert TagWords(tag, items) == [tag, items[0]] + TagWords(tag, items[1..]);
    }
  }

  /** The tails of the items and pairs meet the requirements of TaggedWords. */
  lemma TaggedTail(tag: string, items: seq<string>, sep: char, pairs: seq<string>)
    requires |items| >= 1
    requires forall i :: 0 <= i < |items| ==> sep !in items[i]
    requires |pairs| == |items| && forall i :: 0 <= i < |items| ==> pairs[i] == tag + [sep] + items[i]
    ensures forall i :: 0 <= i < |items| - 1 ==> sep !in items[1..][i]
    ensures |pairs[1..]| == |items[1..]| && forall i :: 0 <= i < |items| - 1 ==> pairs[1..][i] == tag + [sep] + items[1..][i]
  {
    forall i | 0 <= i < |items| - 1
      ensures sep !in items[1..][i] && pairs[1..][i] == tag + [sep] + items[1..][i]
    {
      assert items[1..][i] == items[i + 1] && pairs[1..][i] == pairs[i + 1];
    }
  }

  /** A leading `tag item` pair splits off as its two words. */
  lemma TaggedHead(pair: string, tag: string, item: string, rest: string, sep: char)
    requires sep !in tag && sep !in item && pair == tag + [sep] + item
    ensures Split(pair + [sep] + rest, sep) == [tag, item] + Split(rest, sep)
  {
    SplitAppend(pair, rest, sep);
    SplitPair(tag, item, sep);
  }

  lemma AddFlagsWords(components: seq<string>)
    requires components != []
    requires forall i :: 0 <= i < |components| ==> ' ' !in components[i]
    ensures Split(Join(AddFlags(components), " "), ' ') == TagWords("--add", components)
  {
    AddFlagsTagged(components);
    TaggedWords("--add", components, ' ', AddFlags(components));
  }

  lemma AddFlagsTagged(components: seq<string>)
    ensures " " == [' '] && ' ' !in "--add"
    ensures forall i :: 0 <= i < |components| ==> AddFlags(components)[i] == "--add" + [' '] + components[i]
  {
    assert "--add " == "--add" + [' '];
  }

  /** The override string for the configured components: each one after its own "--add". */
  lemma BuildToolsOverride()
    ensures OverrideString(BuildToolComponents) ==
      "--quiet --wait --norestart " + ("--add " + BuildToolComponents[0]) + " " + ("--add " + BuildToolComponents[1])
  {
    var flags := AddFlags(BuildToolComponents);
    assert flags == ["--add " + BuildToolComponents[0], "--add " + BuildToolComponents[1]];
    assert Join(flags, " ") == flags[0] + " " + flags[1];
  }

  /**
   * Split on spaces, the override string is the three fixed flags followed by "--add C" for
   * each component in order.
   */
  lemma OverrideWords(components: seq<string>)
    requires components != []
    requires forall i :: 0 <= i < |components| ==> ' ' !in components[i]
    ensures Split(OverrideString(components), ' ') == ["--quiet", "--wait", "--norestart"] + TagWords("--add", components)
  {
    AddFlagsWords(components);
    FixedFlagsWords(Join(AddFlags(components), " "));
  }

  /** The three fixed flags split off as three words. */
  lemma FixedFlagsWords(tail: string)
    ensures Split("--quiet --wait --norestart " + tail, ' ') == ["--quiet", "--wait", "--norestart"] + Split(tail, ' ')
  {
    assert "--quiet --wait --norestart " + tail == "--quiet" + [' '] + ("--wait" + [' '] + ("--norestart" + [' '] + tail));
    SplitThree("--quiet", "--wait", "--norestart", tail, ' ');
  }

  // ---------------------------------------------------------------------------
  // create_run_script (all three handlers)
  // ---------------------------------------------------------------------------

  const SageFlag: string := "--use-sage-attention"
  const FastFlag: string := "--fast"

  /** The fixed leading arguments of each platform's run script. */
  function BaseArgs(platform: Platform): (r: seq<string>)
    ensures |r| >= 1 && SageFlag !in r && FastFlag !in r
  {
    if platform == Windows then ["ComfyUI\\main.py", "--windows-standalone-build"] else ["ComfyUI/main.py"]
  }

  /**
   * The handler's `create_run_script` argument list. The macOS handler adds the SageAttention
   * flag only when its own CUDA detection, `macCuda`, is not "cpu".
   */
  method RunScriptArgs(platform: Platform, useSage: bool, fastMode: bool, macCuda: string) returns (args: seq<string>)
    ensures args == ScriptArgs(platform, useSage, fastMode, macCuda)
    ensures SageFlag in args <==> useSage && (platform == MacOS ==> macCuda != "cpu")
    ensures FastFlag in args <==> fastMode
    ensures |args| == |BaseArgs(platform)| + (if SageFlag in args then 1 else 0) + (if fastMode then 1 else 0)
    ensures args[..|BaseArgs(platform)|] == BaseArgs(platform)
    ensures SageFlag in args && fastMode ==> args[|args| - 2] == SageFlag && args[|args| - 1] == FastFlag
  {
    args := BaseArgs(platform);
    if useSage && (platform != MacOS || macCuda != "cpu") {
      args := args + [SageFlag];
    }
    if fastMode {
      args := args + [FastFlag];
    }
  }

  /** The first line of the bash run script, the prompt that follows its command line, and the batch file's last line. */
  const Shebang: string := "#!/bin/bash"
  const ReadPrompt: string := "echo \"Press Enter to continue...\"\nread\n"
  const Pause: string := "pause\n"

  /** The script file each handler writes, and its text. */
  function RunScript(platform: Platform, pythonPath: string, args: seq<string>): (r: (string, string))
    ensures r.0 == if platform == Windows then "run_nvidia_gpu.bat" else "run_comfyui.sh"
    ensures platform == Windows ==> EndsWith(r.1, "\n" + Pause)
    ensures platform != Windows ==> StartsWith(r.1, Shebang + "\n")
  {
    var line := CommandLine(pythonPath, args);
    if platform == Windows then ("run_nvidia_gpu.bat", line + ['\n'] + Pause)
    else ("run_comfyui.sh", Shebang + ['\n'] + (line + ['\n'] + ReadPrompt))
  }

  /** The command line of a run script: the quoted interpreter, `-s`, then the arguments. */
  function CommandLine(pythonPath: string, args: seq<string>): string {
    "\"" + pythonPath + "\" -s " + Join(args, " ")
  }

  /** The argument list `RunScriptArgs` builds. */
  function ScriptArgs(platform: Platform, useSage: bool, fastMode: bool, macCuda: string): seq<string> {
    BaseArgs(platform)
    + (if useSage && (platform != MacOS || macCuda != "cpu") then [SageFlag] else [])
    + (if fastMode then [FastFlag] else [])
  }

  /** The line of the run script that starts the interpreter: the first on Windows, after the shebang elsewhere. */
  function CommandLineIndex(platform: Platform): nat {
    if platform == Windows then 0 else 1
  }

  /** The script's lines hold the command line, at its own line. */
  lemma RunScriptLine(platform: Platform, pythonPath: string, args: seq<string>)
    requires '\n' !in pythonPath && forall i :: 0 <= i < |args| ==> '\n' !in args[i]
    ensures var lines := Split(RunScript(platform, pythonPath, args).1, '\n');
      CommandLineIndex(platform) < |lines| && lines[CommandLineIndex(platform)] == CommandLine(pythonPath, args)
  {
    var line := CommandLine(pythonPath, args);
    CommandLineSingle(pythonPath, args);
    if platform == Windows {
      SplitCons(line, Pause, '\n');
    } else {
      assert '\n' !in Shebang by {
        assert Shebang == "#!/" + "bin/" + "bash";
      }
      SplitCons(Shebang, line + ['\n'] + ReadPrompt, '\n');
      SplitCons(line, ReadPrompt, '\n');
    }
  }

  lemma CommandLineSingle(pythonPath: string, args: seq<string>)
    requires '\n' !in pythonPath && forall i :: 0 <= i < |args| ==> '\n' !in args[i]
    ensures '\n' !in CommandLine(pythonPath, args)
  {
    JoinAvoids(args, " ", '\n');
    assert CommandLine(pythonPath, args) == "\"" + pythonPath + ("\" -s " + Join(args, " "));
  }

  /**
   * The run script written for the argument list of `RunScriptArgs` carries those arguments:
   * reading its command line back gives the list, with the SageAttention flag iff `useSage`
   * (on macOS only when detection is not "cpu") and "--fast" iff `fastMode`.
   */
  lemma RunScriptFlags(platform: Platform, pythonPath: string, useSage: bool, fastMode: bool, macCuda: string)
    requires '\n' !in pythonPath
    ensures var args := ScriptArgs(platform, useSage, fastMode, macCuda);
      var lines := Split(RunScript(platform, pythonPath, args).1, '\n');
      && CommandLineIndex(platform) < |lines|
      && var line := lines[CommandLineIndex(platform)];
      && |pythonPath| + 6 <= |line|
      && Split(line[|pythonPath| + 6..], ' ') == args
      && (SageFlag in args <==> useSage && (platform == MacOS ==> macCuda != "cpu"))
      && (FastFlag in args <==> fastMode)
  {
    var args := ScriptArgs(platform, useSage, fastMode, macCuda);
    ScriptArgsWords(platform, useSage, fastMode, macCuda);
    ScriptArgsFlags(platform, useSage, fastMode, macCuda);
    RunScriptLine(platform, pythonPath, args);
    CommandLineArgs(pythonPath, args);
  }

  /** The run-script arguments are single words on a single line. */
  lemma ScriptArgsWords(platform: Platform, useSage: bool, fastMode: bool, macCuda: string)
    ensures var args := ScriptArgs(platform, useSage, fastMode, macCuda);
      args != [] && forall i :: 0 <= i < |args| ==> ' ' !in args[i] && '\n' !in args[i]
  {
    BaseArgsWords(platform);
    FlagWords();
  }

  lemma BaseArgsWords(platform: Platform)
    ensures forall i :: 0 <= i < |BaseArgs(platform)| ==> ' ' !in BaseArgs(platform)[i] && '\n' !in BaseArgs(platform)[i]
  {
    if platform == Windows {
      WindowsMainWord();
      StandaloneWord();
    }
  }

  lemma WindowsMainWord()
    ensures ' ' !in "ComfyUI\\main.py" && '\n' !in "ComfyUI\\main.py"
  {
  }

  lemma StandaloneWord()
    ensures ' ' !in "--windows-standalone-build" && '\n' !in "--windows-standalone-build"
  {
  }

  lemma FlagWords()
    ensures ' ' !in SageFlag && '\n' !in SageFlag && ' ' !in FastFlag && '\n' !in FastFlag
  {
  }

  /** The optional flags appear in the run-script arguments exactly when they are asked for. */
  lemma ScriptArgsFlags(platform: Platform, useSage: bool, fastMode: bool, macCuda: string)
    ensures var args := ScriptArgs(platform, useSage, fastMode, macCuda);
      && (SageFlag in args <==> useSage && (platform == MacOS ==> macCuda != "cpu"))
      && (FastFlag in args <==> fastMode)
  {
    assert SageFlag != FastFlag;
  }

  /** The arguments are read back from the command line after the interpreter and `-s`. */
  lemma CommandLineArgs(pythonPath: string, args: seq<string>)
    requires args != [] && forall i :: 0 <= i < |args| ==> ' ' !in args[i]
    ensures var line := CommandLine(pythonPath, args);
      Split(line[|pythonPath| + 6..], ' ') == args
  {
    var line := CommandLine(pythonPath, args);
    assert line[|pythonPath| + 6..] == Join(args, " ");
    SplitJoin(args, ' ');
  }

  // ---------------------------------------------------------------------------
  // detect_and_setup_cuda, and the handlers' CUDA detection where it decides
  // ---------------------------------------------------------------------------

  /** `detect_and_setup_cuda`: no version, an empty one, or "cpu" all become "cpu". */
  function DetectAndSetupCuda(detected: Option<string>): (v: string)
    ensures v == "cpu" <==> detected.None? || detected.value == "" || detected.value == "cpu"
    ensures v != "cpu" ==> detected == Some(v)
  {
    if detected.Some? && detected.value != "" && detected.value != "cpu" then detected.value else "cpu"
  }

  /** `MacOSHandler.detect_cuda_version`: Apple Silicon is "cpu"; otherwise the nvcc release, else "cpu". */
  function MacDetectCuda(appleSilicon: bool, nvccRelease: Option<string>): (v: string)
    ensures appleSilicon ==> v == "cpu"
    ensures nvccRelease.None? ==> v == "cpu"
    ensures v != "cpu" ==> nvccRelease == Some(v)
    ensures !appleSilicon && nvccRelease.Some? ==> v == nvccRelease.value
  {
    if appleSilicon then "cpu"
    else match nvccRelease
      case Some(version) => version
      case None => "cpu"
  }

  /** `create_run_script` of the installer: SageAttention is used iff the version is not "cpu". */
  function UseSage(cudaVersion: string): bool {
    cudaVersion != "cpu"
  }

  /** With no CUDA found, the run script never asks for SageAttention. */
  lemma NoCudaNoSage(platform: Platform, detected: Option<string>, macCuda: string)
    requires detected.None?
    ensures var v := DetectAndSetupCuda(detected);
      !UseSage(v) && PytorchInstallUrl(platform, v) == CpuIndexUrl
  {
    CpuIndexExactly(platform, "cpu");
  }

  // ---------------------------------------------------------------------------
  // _check_pytorch_compatibility
  // ---------------------------------------------------------------------------

  /** `version.split('.')[0]`. */
  function Major(version: string): (m: string)
    ensures '.' !in m
  {
    Split(version, '.')[0]
  }

  /**
   * `_check_pytorch_compatibility`: `probe` is the probe's standard output, or None when the
   * command failed. The stripped output must split into exactly three `|`-separated fields
   * (torch version, CUDA availability, torch's CUDA version).
   */
  function CheckPytorchCompatibility(cudaVersion: string, probe: Option<string>): (ok: bool)
    ensures ok ==> probe.Some? && |Split(Strip(probe.value), '|')| == 3
    ensures ok ==> StartsWith(Split(Strip(probe.value), '|')[0], "2.")
  {
    match probe
    case None => false
    case Some(output) =>
      var fields := Split(Strip(output), '|');
      if |fields| != 3 then false
      else
        var torchVersion, cudaAvailable, torchCudaVersion := fields[0], fields[1], fields[2];
        if !StartsWith(torchVersion, "2.") then false
        else if cudaVersion == "cpu" then true
        else if cudaAvailable == "False" then false
        else if torchCudaVersion != "None" then Major(torchCudaVersion) == Major(cudaVersion)
        else false
  }

  /** Python's `str(b)` for a boolean. */
  function BoolText(b: bool): string {
    if b then "True" else "False"
  }

  /** The third field the probe prints: torch's CUDA version when CUDA is available, else "None". */
  function ProbeCudaField(cudaAvailable: bool, torchCuda: Option<string>): string {
    if cudaAvailable then StrOrNone(torchCuda) else "None"
  }

  /** The line the probe prints. */
  function ProbeLine(torchVersion: string, cudaAvailable: bool, torchCuda: Option<string>): string {
    torchVersion + "|" + BoolText(cudaAvailable) + "|" + ProbeCudaField(cudaAvailable, torchCuda)
  }

  /** The probe's printed line reads back as its three fields. */
  lemma ProbeFields(torchVersion: string, cudaAvailable: bool, torchCuda: Option<string>)
    requires torchVersion != [] && !IsSpace(torchVersion[0]) && '|' !in torchVersion
    requires torchCuda.Some? ==> torchCuda.value != [] && !IsSpace(torchCuda.value[|torchCuda.value| - 1])
    requires torchCuda.Some? ==> '|' !in torchCuda.value
    ensures Split(Strip(ProbeLine(torchVersion, cudaAvailable, torchCuda) + "\n"), '|')
      == [torchVersion, BoolText(cudaAvailable), ProbeCudaField(cudaAvailable, torchCuda)]
  {
    var last := ProbeCudaField(cudaAvailable, torchCuda);
    assert last != [] && !IsSpace(last[|last| - 1]) && '|' !in last;
    var mid := BoolText(cudaAvailable);
    assert '|' !in mid;
    FieldsLine(torchVersion, mid, last);
  }

  lemma FieldsLine(first: string, mid: string, last: string)
    requires first != [] && !IsSpace(first[0]) && '|' !in first
    requires last != [] && !IsSpace(last[|last| - 1]) && '|' !in last
    requires '|' !in mid
    ensures Split(Strip(first + "|" + mid + "|" + last + "\n"), '|') == [first, mid, last]
  {
    var line := first + "|" + mid + "|" + last;
    assert Strip(line + "\n") == line by {
      assert line[0] == first[0] && line[|line| - 1] == last[|last| - 1];
      StripLine(line);
    }
    FieldsSplit(first, mid, last, "|");
  }

  /** Three bar-free fields joined by the bar split back into the three. */
  lemma FieldsSplit(first: string, mid: string, last: string, bar: string)
    requires bar == ['|'] && '|' !in first && '|' !in mid && '|' !in last
    ensures Split(first + bar + mid + bar + last, '|') == [first, mid, last]
  {
    SplitAppend(first + bar + mid, last, '|');
    SplitPair(first, mid, '|');
    SplitNoSep(last, '|');
  }

  /**
   * What the check decides about a real installation: a 2.x torch always suits the CPU
   * target; a CUDA target also needs CUDA available, a known torch CUDA version, and the
   * same major version.
   */
  lemma CompatibilityOfInstall(cudaVersion: string, torchVersion: string, cudaAvailable: bool, torchCuda: Option<string>)
    requires torchVersion != [] && !IsSpace(torchVersion[0]) && '|' !in torchVersion
    requires torchCuda.Some? ==> torchCuda.value != [] && !IsSpace(torchCuda.value[|torchCuda.value| - 1])
    requires torchCuda.Some? ==> '|' !in torchCuda.value
    ensures CheckPytorchCompatibility(cudaVersion, Some(ProbeLine(torchVersion, cudaAvailable, torchCuda) + "\n"))
      <==> StartsWith(torchVersion, "2.")
           && (cudaVersion == "cpu"
               || (cudaAvailable && torchCuda.Some? && torchCuda.value != "None"
                   && Major(torchCuda.value) == Major(cudaVersion)))
  {
    ProbeFields(torchVersion, cudaAvailable, torchCuda);
  }

  // ---------------------------------------------------------------------------
  // LinuxHandler._filter_installed_packages
  // ---------------------------------------------------------------------------

  /** The query that tells whether a package is installed, or None for an unknown manager. */
  function QueryCommand(manager: string, package: string): (cmd: Option<seq<string>>)
    ensures cmd.Some? <==> manager in {"apt", "yum", "dnf", "pacman"}
    ensures cmd.Some? ==> |cmd.value| >= 3 && cmd.value[|cmd.value| - 1] == package
  {
    if manager == "apt" then Some(["dpkg", "-l", package])
    else if manager == "yum" || manager == "dnf" then Some([manager, "list", "installed", package])
    else if manager == "pacman" then Some(["pacman", "-Qi", package])
    else None
  }

  /**
   * Whether a package still has to be installed: an unknown manager, a query that could not run
   * (`query` answers None) or a non-zero exit status.
   */
  predicate NeedsInstall(manager: string, package: string, query: seq<string> -> Option<int>) {
    match QueryCommand(manager, package)
    case None => true
    case Some(cmd) => query(cmd).None? || query(cmd).value != 0
  }

  /** The packages that need installing, in input order. */
  function ToInstall(packages: seq<string>, manager: string, query: seq<string> -> Option<int>): (r: seq<string>)
    ensures |r| <= |packages|
    ensures forall p :: p in r ==> p in packages && NeedsInstall(manager, p, query)
  {
    if packages == [] then []
    else
      var init := ToInstall(packages[..|packages| - 1], manager, query);
      var p := packages[|packages| - 1];
      if NeedsInstall(manager, p, query) then init + [p] else init
  }

  /** Filtering a concatenation filters each part, in order. */
  lemma {:induction false} ToInstallAppend(a: seq<string>, b: seq<string>, manager: string, query: seq<string> -> Option<int>)
    ensures ToInstall(a + b, manager, query) == ToInstall(a, manager, query) + ToInstall(b, manager, query)
    decreases |b|
  {
    if b == [] {
      assert a + b == a;
    } else {
      var init := b[..|b| - 1];
      var p := b[|b| - 1];
      SnocShape(a, b);
      ToInstallAppend(a, init, manager, query);
      ToInstallSnoc(a + init, p, manager, query);
      ToInstallSnoc(init, p, manager, query);
      var kept := if NeedsInstall(manager, p, query) then [p] else [];
      SeqAssoc(ToInstall(a, manager, query), ToInstall(init, manager, query), kept);
    }
  }

  lemma SnocShape(a: seq<string>, b: seq<string>)
    requires b != []
    ensures b == b[..|b| - 1] + [b[|b| - 1]] && a + b == (a + b[..|b| - 1]) + [b[|b| - 1]]
  {
  }

  lemma SeqAssoc(x: seq<string>, y: seq<string>, z: seq<string>)
    ensures (x + y) + z == x + (y + z)
  {
  }

  /** Filtering a list with one more package at the end. */
  lemma ToInstallSnoc(xs: seq<string>, p: string, manager: string, query: seq<string> -> Option<int>)
    ensures ToInstall(xs + [p], manager, query) ==
      ToInstall(xs, manager, query) + (if NeedsInstall(manager, p, query) then [p] else [])
  {
    assert (xs + [p])[..|xs|] == xs;
  }

  /** One package is kept iff it needs installing. */
  lemma ToInstallSingle(p: string, manager: string, query: seq<string> -> Option<int>)
    ensures ToInstall([p], manager, query) == if NeedsInstall(manager, p, query) then [p] else []
  {
    assert [p][..0] == [];
  }

  /** Every input package that needs installing is kept. */
  lemma {:induction false} ToInstallComplete(packages: seq<string>, manager: string, query: seq<string> -> Option<int>, p: string)
    requires p in packages && NeedsInstall(manager, p, query)
    ensures p in ToInstall(packages, manager, query)
    decreases |packages|
  {
    var init := packages[..|packages| - 1];
    if p != packages[|packages| - 1] {
      assert p in init by {
        var k :| 0 <= k < |packages| && packages[k] == p;
        assert init[k] == p;
      }
      ToInstallComplete(init, manager, query, p);
    }
  }

  /** With an unknown package manager every package is installed, in order. */
  lemma {:induction false} UnknownManagerKeepsAll(packages: seq<string>, manager: string, query: seq<string> -> Option<int>)
    requires manager !in {"apt", "yum", "dnf", "pacman"}
    ensures ToInstall(packages, manager, query) == packages
    decreases |packages|
  {
    if packages != [] {
      UnknownManagerKeepsAll(packages[..|packages| - 1], manager, query);
      assert packages[..|packages| - 1] + [packages[|packages| - 1]] == packages;
    }
  }

  /** `_filter_installed_packages`: one query per package, in order. */
  method FilterInstalledPackages(packages: seq<string>, manager: string, query: seq<string> -> Option<int>)
    returns (toInstall: seq<string>)
    ensures toInstall == ToInstall(packages, manager, query)
  {
    toInstall := [];
    var i := 0;
    while i < |packages|
      invariant 0 <= i <= |packages|
      invariant toInstall == ToInstall(packages[..i], manager, query)
    {
      var package := packages[i];
      if manager == "apt" {
        var result := query(["dpkg", "-l", package]);
        if result.None? || result.value != 0 {
          toInstall := toInstall + [package];
        }
      } else if manager == "yum" || manager == "dnf" {
        var result := query([manager, "list", "installed", package]);
        if result.None? || result.value != 0 {
          toInstall := toInstall + [package];
        }
      } else if manager == "pacman" {
        var result := query(["pacman", "-Qi", package]);
        if result.None? || result.value != 0 {
          toInstall := toInstall + [package];
        }
      } else {
        toInstall := toInstall + [package];
      }
      assert packages[..i + 1][..i] == packages[..i];
      i := i + 1;
    }
    assert packages[..i] == packages;
  }

  // ---------------------------------------------------------------------------
  // ComfyUIInstaller: install_pytorch and the SageAttention wheel search
  // ---------------------------------------------------------------------------

  /** `pip_install`: the interpreter runs pip with the extra arguments before the packages. */
  function PipInstall(pythonPath: string, packages: seq<string>, extraArgs: seq<string>): seq<string> {
    [pythonPath, "-m", "pip", "install"] + extraArgs + packages
  }

  const TorchPackages: seq<string> := ["torch", "torchvision", "torchaudio"]

  /** The pip command `install_pytorch` runs for a CUDA version. */
  function PytorchCommand(platform: Platform, pythonPath: string, cudaVersion: string): (cmd: seq<string>)
    ensures cudaVersion == "cpu" ==> cmd == PipInstall(pythonPath, TorchPackages, [])
    ensures cudaVersion != "cpu" ==> |cmd| == 9 && cmd[..4] == [pythonPath, "-m", "pip", "install"]
    ensures cudaVersion != "cpu" ==> cmd[4] == "--index-url" && cmd[5] == PytorchInstallUrl(platform, cudaVersion)
    ensures cudaVersion != "cpu" ==> cmd[6..] == ["torch==2.7.0", "torchvision", "torchaudio"]
  {
    if cudaVersion != "cpu" then
      PipInstall(pythonPath, ["torch==2.7.0", "torchvision", "torchaudio"],
                 ["--index-url", PytorchInstallUrl(platform, cudaVersion)])
    else PipInstall(pythonPath, TorchPackages, [])
  }

  datatype PytorchOutcome =
    | AlreadyCompatible
    | Declined
    | Installed(command: seq<string>)
    | PipFailed(command: seq<string>)

  /** One pre-built wheel: SageAttention version, CUDA tag, torch tag (three digits), Python tag. */
  datatype WheelConfig = WheelConfig(sage: string, cuda: string, torch: string, python: string)

  const WheelConfigs: seq<WheelConfig> := [
    WheelConfig("2.1.1", "128", "270", "312"),
    WheelConfig("2.1.1", "126", "260", "312"),
    WheelConfig("2.0.1", "126", "250", "312"),
    WheelConfig("2.0.1", "121", "240", "312"),
    WheelConfig("2.0.1", "118", "240", "311")
  ]

  /** The release URL of a pre-built wheel; the torch tag "270" reads as 2.7.0. */
  function WheelUrl(w: WheelConfig): string
    requires |w.torch| == 3
  {
    "https://github.com/woct0rdho/SageAttention/releases/download/v" + w.sage + "-windows/sageattention-"
      + w.sage + "+cu" + w.cuda + "torch" + [w.torch[0]] + "." + [w.torch[1]] + "." + [w.torch[2]]
      + "-cp" + w.python + "-cp" + w.python + "-win_amd64.whl"
  }

  predicate WellFormed(configs: seq<WheelConfig>) {
    forall i :: 0 <= i < |configs| ==> |configs[i].torch| == 3
  }

  /** A config for this Python whose wheel installs. */
  predicate Installable(w: WheelConfig, pythonTag: string, installs: string -> bool)
    requires |w.torch| == 3
  {
    w.python == pythonTag && installs(WheelUrl(w))
  }

  /** The first config, from `from` on, for this Python whose wheel installs. */
  function FirstWheel(configs: seq<WheelConfig>, pythonTag: string, installs: string -> bool, from: nat): (r: Option<nat>)
    requires WellFormed(configs)
    ensures r.Some? ==> from <= r.value < |configs| && Installable(configs[r.value], pythonTag, installs)
    ensures r.Some? ==> forall k :: from <= k < r.value ==> !Installable(configs[k], pythonTag, installs)
    ensures r.None? ==> forall k :: from <= k < |configs| ==> !Installable(configs[k], pythonTag, installs)
    decreases |configs| - from
  {
    if from >= |configs| then None
    else if Installable(configs[from], pythonTag, installs) then Some(from)
    else FirstWheel(configs, pythonTag, installs, from + 1)
  }

  /**
   * The wheel loop of `clone_and_install_repositories`: configs for another Python are
   * skipped, the first wheel that installs ends the loop.
   */
  method TryWheels(configs: seq<WheelConfig>, pythonTag: string, installs: string -> bool) returns (url: Option<string>)
    requires WellFormed(configs)
    ensures url.Some? <==> FirstWheel(configs, pythonTag, installs, 0).Some?
    ensures url.Some? ==> url.value == WheelUrl(configs[FirstWheel(configs, pythonTag, installs, 0).value])
  {
    var i := 0;
    while i < |configs|
      invariant 0 <= i <= |configs|
      invariant FirstWheel(configs, pythonTag, installs, 0) == FirstWheel(configs, pythonTag, installs, i)
    {
      var config := configs[i];
      if config.python != pythonTag {
        i := i + 1;
        continue;
      }
      var wheelUrl := WheelUrl(config);
      if installs(wheelUrl) {
        return Some(wheelUrl);
      }
      i := i + 1;
    }
    return None;
  }

  /** How SageAttention got installed, or that the source build has to be tried. */
  datatype SageOutcome = FromWheel(url: string) | FromPyPI | SourceBuildNeeded

  const SagePyPIPin: string := "sageattention==1.0.6"

  class ComfyUIInstaller {
    const pythonPath: string
    const force: bool
    const interactive: bool
    var installedPackages: seq<string>

    constructor(pythonPath: string, force: bool, interactive: bool)
      ensures this.pythonPath == pythonPath && this.force == force && this.interactive == interactive
      ensures installedPackages == []
    {
      this.pythonPath := pythonPath;
      this.force := force;
      this.interactive := interactive;
      installedPackages := [];
    }

    /**
     * `install_pytorch`. A compatible installation is kept unless `force`; with `force` an
     * interactive run asks first, and any answer other than "y" (any case) skips. Otherwise pip
     * runs once and, when it succeeds, the three torch packages are recorded.
     */
    method InstallPytorch(platform: Platform, cudaVersion: string, probe: Option<string>, answer: string, pipSucceeds: bool)
      returns (outcome: PytorchOutcome)
      modifies this`installedPackages
      ensures var compatible := CheckPytorchCompatibility(cudaVersion, probe);
        && (outcome == AlreadyCompatible <==> !force && compatible)
        && (outcome == Declined <==> force && compatible && interactive && Lower(answer) != "y")
      ensures outcome.Installed? || outcome.PipFailed? ==> outcome.command == PytorchCommand(platform, pythonPath, cudaVersion)
      ensures outcome.Installed? || outcome.PipFailed? ==> (outcome.Installed? <==> pipSucceeds)
      ensures installedPackages == old(installedPackages) + (if outcome.Installed? then TorchPackages else [])
    {
      var compatible := CheckPytorchCompatibility(cudaVersion, probe);
      if !force && compatible {
        return AlreadyCompatible;
      }
      if force && compatible {
        if interactive && Lower(answer) != "y" {
          return Declined;
        }
      }
      var command := PytorchCommand(platform, pythonPath, cudaVersion);
      if !pipSucceeds {
        return PipFailed(command);
      }
      installedPackages := installedPackages + TorchPackages;
      return Installed(command);
    }

    /**
     * The SageAttention step of `clone_and_install_repositories` up to the source build: on
     * Windows, try the pre-built wheels for this Python in order and stop at the first that
     * installs; otherwise install the pinned PyPI release; if that fails too, the source build
     * follows. `installs` says whether `pip install` of a requirement (a wheel URL or a pin)
     * succeeds.
     */
    method InstallSageAttention(platform: Platform, pythonTag: string, installs: string -> bool)
      returns (outcome: SageOutcome)
      modifies this`installedPackages
      ensures var first := FirstWheel(WheelConfigs, pythonTag, installs, 0);
        && (outcome.FromWheel? <==> platform == Windows && first.Some?)
        && (outcome.FromWheel? ==> outcome.url == WheelUrl(WheelConfigs[first.value]))
        && (outcome == FromPyPI <==> !outcome.FromWheel? && installs(SagePyPIPin))
      ensures installedPackages == old(installedPackages) + (if outcome.SourceBuildNeeded? then [] else ["sageattention"])
    {
      if platform == Windows {
        assert WellFormed(WheelConfigs);
        var url := TryWheels(WheelConfigs, pythonTag, installs);
        if url.Some? {
          installedPackages := installedPackages + ["sageattention"];
          return FromWheel(url.value);
        }
      }
      if installs(SagePyPIPin) {
        installedPackages := installedPackages + ["sageattention"];
        return FromPyPI;
      }
      return SourceBuildNeeded;
    }
  }
}
