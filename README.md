# TensorDock ComfyUI deployment: a Dafny model

This project models the decision logic of the tensordock-deploy scripts. These scripts rent
an RTX 4090 server on TensorDock, set up ComfyUI on it, and install the local ComfyUI +
Triton + SageAttention stack and its model files:

- `tensordock_deploy.py`: the v0 deployer, `TensorDockDeployer` (module `Deploy`). It covers
  request dispatch, the hostnode stock filter, the create request with its normalised GPU and
  OS names, and the readiness poll that fills in the ip, port and password fields. It also
  covers the saved connection record, the remote command loop and the delete call.
- `tensordock_auto_deploy.py`: the v2 deployer, `ComfyUIDeployer` (module `AutoDeploy`). It
  covers the escaping of the CivitAI key in the setup script and the choice of the first
  location offering an available RTX 4090. It also covers the JSON:API create payload, the
  instance poll, the one-shot upload-and-run over ssh, and the list/select/confirm/terminate
  dialogue.
- `comfyui_triton_sageattention.py`: the installer (module `Installer`). It covers the
  per-platform rules of the three handlers (the PyTorch index URL, the Visual Studio override
  string, the run-script arguments and the package filter) and CUDA normalisation. It also
  covers the PyTorch compatibility decision, `install_pytorch`, and the SageAttention
  pre-built wheel search with its PyPI fallback.
- `download_models.py`: the model downloader (module `Downloader`). It covers the ">1 MiB is
  already present" rule, the flattening of HuggingFace files to their basename, the CivitAI
  URL and `Authorization` header, and the per-file loop that carries on past failures.

Everything the scripts obtain from outside is a parameter of the model:

- HTTP responses and process exit codes;
- the captured output of the torch probe;
- console answers;
- the epoch second used in instance names;
- whether `pip install` succeeds;
- the sizes of files written by downloads.

Successive answers to a repeated request are a function from the call number (0, 1, …) to
the answer. Time is whole seconds, and only the scripts' sleeps advance it (module `Clock`).
In the v2 deployer no `requests` call sits inside a `try`, so a connection error or timeout
ends the method; such a call is answered by a `Reply` that is either a response or `Raised`.
The directory of model files is a map from path to size. Module `Text` holds string helpers
that follow Python's `str` methods (`replace`, `split`, `join`, `strip`, `lower`, `in`,
`int`, `str`) and `os.path.basename`/`dirname`/`join`, on ASCII text.

`run_remote_deployment` uploads the script once and runs it once, and its report depends only
on the two exit codes. The model therefore has no retry loop.

## Model

| member | source | states |
|---|---|---|
| AutoDeploy.EscapeSingleQuotes | tensordock_auto_deploy.py:46 | a key without a single quote is left unchanged |
| AutoDeploy.EscapeAtQuote | tensordock_auto_deploy.py:46 | at the first quote, everything before it is kept verbatim and that quote becomes `'\''`, followed by the escaped remainder |
| AutoDeploy.QuoteFreeRoundTrip | tensordock_auto_deploy.py:46 | a quote-free key in single quotes is read by the shell as exactly the key |
| AutoDeploy.EscapedKeyRoundTrip | tensordock_auto_deploy.py:46 | for every key, the escaped key in single quotes is one shell word whose value is the original key |
| AutoDeploy.EnvKeyLine | tensordock_auto_deploy.py:83 | the `.env` line starts with `CIVITAI_API_KEY=` and carries a quote-free key unchanged |
| AutoDeploy.IsRtx4090Iff | tensordock_auto_deploy.py:249 | the GPU test holds iff `max_count` > 0 and the lower-cased name contains "4090" (the "rtx4090" alternative adds nothing) |
| AutoDeploy.FirstRtx4090 | tensordock_auto_deploy.py:244-258 | the result is the index of the first GPU passing the test; None means no GPU passes |
| AutoDeploy.FirstEligible | tensordock_auto_deploy.py:237-261 | the result is the index of the first location with a truthy id and a qualifying GPU; None means there is none |
| AutoDeploy.Select | tensordock_auto_deploy.py:233-271 | None iff no location is eligible; otherwise the selection is taken from an eligible location with no eligible location before it |
| AutoDeploy.SelectedGpuAvailable | tensordock_auto_deploy.py:244-252 | the selected location id and GPU name come from a GPU in the response with `max_count` > 0 whose lower-cased name contains "4090" |
| AutoDeploy.SelectLocation | tensordock_auto_deploy.py:233-261 | the nested loop with its `selected_*` variables and breaks returns exactly `Select` of the locations |
| AutoDeploy.CreateRequest | tensordock_auto_deploy.py:277-303 | the `gpus` map has the selected GPU name as its only key, with count `gpu_count`; the location is the selected one; the resources are the arguments; the image is ubuntu2404; there is no dedicated IP |
| AutoDeploy.FirstSettled | tensordock_auto_deploy.py:366-381 | the result is the first poll, within the budget, that raises or is 200, "running" and has a truthy address; None means there is none |
| AutoDeploy.WaitForInstance | tensordock_auto_deploy.py:358-389 | the wait ends at the first poll that raises or is ready. A raise propagates (`raised`, no address) after 10·n seconds. A ready poll n returns its address and port (22 when absent) at 10·n + 30 seconds. With neither before `max_wait`, it returns (None, None) after 10 s per poll |
| AutoDeploy.WaitReturnsOnlyRunning | tensordock_auto_deploy.py:366-381 | an address is only returned from a 200 "running" response with a truthy address, issued before the deadline |
| AutoDeploy.RunRemoteDeployment | tensordock_auto_deploy.py:391-446 | a failed upload issues nothing further; otherwise scp then ssh are issued once each; success iff both exit codes are 0; a script failure carries its non-zero code |
| AutoDeploy.ParseEach | tensordock_auto_deploy.py:518-522 | every field is parsed in order; None iff some field fails to parse |
| AutoDeploy.ParseSelectionsRoundTrip | tensordock_auto_deploy.py:518-522 | integers written out and joined with commas parse back to the same list |
| AutoDeploy.ValidSelections | tensordock_auto_deploy.py:525-529 | only indices in 1..len(instances) are kept |
| AutoDeploy.ValidSelectionsKeepAll | tensordock_auto_deploy.py:525-529 | every in-range index is kept as often as it was given, and nothing else is |
| AutoDeploy.ChosenIsValidSelections | tensordock_auto_deploy.py:525-529 | the chosen instances are `instances[idx-1]` for the in-range indices, in input order |
| AutoDeploy.ChosenEmpty | tensordock_auto_deploy.py:525-533 | nothing is chosen iff no index is in range |
| AutoDeploy.ChooseInstances | tensordock_auto_deploy.py:525-529 | the appending loop computes exactly `Chosen` |
| AutoDeploy.TerminateAll | tensordock_auto_deploy.py:545-558 | one DELETE per chosen instance, in order, until one raises; each answered one is terminated iff its own status is 200 or 204; a failed status does not stop the loop; a raise leaves the remaining instances |
| AutoDeploy.ListAndManageInstances | tensordock_auto_deploy.py:448-560 | a raising list request escapes; deleting starts iff all of these hold: the list returned 200 and is non-empty, the answer is not "q", every token parses, some index is in range, and the confirmation is "yes". Unparsable input aborts. The deletions are those of `TerminateAll`, and a raising DELETE escapes with the deletions made so far |
| AutoDeploy.ComfyUIDeployer.constructor | tensordock_auto_deploy.py:36-40 | keeps the CivitAI key; `server_info` starts as None |
| AutoDeploy.ComfyUIDeployer.DeployWithRawApi | tensordock_auto_deploy.py:191-356 | each outcome holds iff its condition does: the locations request raises or is not 200; no RTX 4090; the create request raises or is not 200/201. Once created, `server_info` is the create response, and a poll raising first escapes. The remote run happens iff a ready poll comes first within 300 s, against that poll's address and port (22 when absent); the payload is built from `Select` |
| Deploy.VerbOf | tensordock_deploy.py:47-54 | exactly GET, POST and DELETE are dispatched |
| Deploy.MakeRequest | tensordock_deploy.py:41-62 | an unsupported method raises before any request is sent; transport errors and 4xx/5xx exit with 1; otherwise the body is returned |
| Deploy.OffersExact | tensordock_deploy.py:72-84 | every offer comes from a GPU model whose name contains "4090"; every such model of every hostnode gives an offer |
| Deploy.OffersAppend | tensordock_deploy.py:72-84 | the offers of two runs of hostnodes are the first run's offers followed by the second's, so offers keep response order, one per "4090" model |
| Deploy.FirstOfferExists | tensordock_deploy.py:72-115 | a non-empty offer list starts with the offer of some first "4090" model: no earlier hostnode has one and no earlier model of its hostnode is one |
| Deploy.FirstOffer | tensordock_deploy.py:72-115 | whichever model is the response's first "4090" model, the first offer is built from it and its hostnode |
| Deploy.NodeOffersSound | tensordock_deploy.py:76-82 | an offer of a hostnode comes from one of its 4090 models |
| Deploy.NodeOffersComplete | tensordock_deploy.py:76-82 | every 4090 model of a hostnode gives an offer |
| Deploy.NoAmountFilter | tensordock_deploy.py:76-82 | a 4090 model without `amount` still gives an offer, with count 0 |
| Deploy.GpuModelParam | tensordock_deploy.py:120 | the GPU parameter contains no space |
| Deploy.GpuModelParamInverse | tensordock_deploy.py:120 | a model name without underscores is recovered from the parameter by turning `_` back into spaces |
| Deploy.OsParam | tensordock_deploy.py:126 | the OS parameter contains no space and no dot |
| Deploy.OsParamOfRelease | tensordock_deploy.py:126 | "Name Major.Minor Suffix" becomes "Name_MajorMinor_Suffix" ("Ubuntu 22.04 LTS" becomes "Ubuntu_2204_LTS") |
| Deploy.TensorDockDeployer.constructor | tensordock_deploy.py:28-39 | server id, ip, port and password all start as None |
| Deploy.TensorDockDeployer.GetAvailableLocations | tensordock_deploy.py:64-84 | a failed stock request exits; otherwise the appending double loop returns exactly `Offers` of the hostnodes |
| Deploy.TensorDockDeployer.DeployServer | tensordock_deploy.py:86-141 | deploys iff both requests succeed, there is an offer and the server id is truthy; then the hostnode is the first offer's, that is the hostnode of the response's first "4090" model, the GPU and OS names are normalised, and `server_id` is stored; every other path exits with 1 |
| Deploy.TensorDockDeployer.FirstDecisive | tensordock_deploy.py:148-177 | the result is the first poll that is running or fails the request; None means there is none |
| Deploy.TensorDockDeployer.WaitForServerReady | tensordock_deploy.py:143-177 | ready exactly at the first running poll before the timeout, which sets ip, port (22 when absent) and password; a failed request exits; otherwise times out after 10 s per poll; the fields are unchanged unless ready |
| Deploy.TensorDockDeployer.ConnectionInfo | tensordock_deploy.py:242-256 | the record has exactly the keys server_id, ip, port, username = "root", password and comfyui_url = http://ip:8188 (http://None:8188 without an ip) |
| Deploy.ServiceUrlRoundTrip | tensordock_deploy.py:250 | the saved ComfyUI address gives back the server ip |
| Deploy.TensorDockDeployer.SetupAndDeployComfyUI | tensordock_deploy.py:179-240 | sshpass is installed only when missing; then every remote command runs through the ssh prefix in list order, and each report depends on its own exit code only |
| Deploy.TensorDockDeployer.RunCommands | tensordock_deploy.py:224-235 | one command per entry, in order; a non-zero code is reported (flagged for manual action when it is deploy.sh) and never stops the rest |
| Deploy.SshCommands | tensordock_deploy.py:224-228 | the k-th issued command is the ssh prefix followed by the k-th command in single quotes |
| Deploy.TensorDockDeployer.DeleteServer | tensordock_deploy.py:258-271 | nothing is sent without a truthy server id; otherwise one DELETE to client/delete/{id}, whose body is returned iff the request succeeds |
| Installer.CudaTag | comfyui_triton_sageattention.py:316-318 | the tag has no dots |
| Installer.PytorchInstallUrl | comfyui_triton_sageattention.py:313-318 | the URL is always under https://download.pytorch.org/whl/ |
| Installer.CpuIndexExactly | comfyui_triton_sageattention.py:797-800 | the CPU index is chosen iff the handler is macOS or the version is "cpu" |
| Installer.CudaUrlOfVersion | comfyui_triton_sageattention.py:588-593 | on Windows and Linux, "major.minor" gives .../whl/cu{major}{minor} ("12.8" gives cu128) |
| Installer.AddFlags | comfyui_triton_sageattention.py:296 | one "--add C" per component, in order |
| Installer.OverrideString | comfyui_triton_sageattention.py:294-297 | the override string starts with "--quiet --wait --norestart " |
| Installer.BuildToolsOverride | comfyui_triton_sageattention.py:128-133 | the override for the configured components is the three fixed flags, then "--add" before each of the two components, in order |
| Installer.OverrideWords | comfyui_triton_sageattention.py:294-297 | split on spaces, it is the three fixed flags followed by "--add", C for each component in order |
| Installer.BaseArgs | comfyui_triton_sageattention.py:325 | the base list is non-empty and holds neither optional flag |
| Installer.RunScriptArgs | comfyui_triton_sageattention.py:802-811 | the base list comes first; "--use-sage-attention" is added iff `use_sage` (on macOS only when its own detection is not "cpu"), then "--fast" iff `fast_mode`, in that order |
| Installer.RunScript | comfyui_triton_sageattention.py:320-333 | the script is `run_nvidia_gpu.bat` on Windows and `run_comfyui.sh` elsewhere; the batch file ends with `pause`; the shell script starts with a bash shebang |
| Installer.RunScriptLine | comfyui_triton_sageattention.py:595-607 | the command line sits on a line of its own: the first line of the batch file, the line after the shebang in the shell script |
| Installer.RunScriptFlags | comfyui_triton_sageattention.py:802-814 | reading the written script's command line back gives the handler's argument list, with "--use-sage-attention" iff `use_sage` (on macOS only when its detection is not "cpu") and "--fast" iff `fast_mode` |
| Installer.CommandLineArgs | comfyui_triton_sageattention.py:331 | the arguments are read back from the command line after the quoted interpreter and `-s` |
| Installer.DetectAndSetupCuda | comfyui_triton_sageattention.py:954-965 | None, "" or "cpu" become "cpu"; any other detected version is kept |
| Installer.MacDetectCuda | comfyui_triton_sageattention.py:777-795 | Apple Silicon and an nvcc without a release give "cpu"; on an Intel Mac whose nvcc reports a release, the result is that release |
| Installer.NoCudaNoSage | comfyui_triton_sageattention.py:1335-1339 | with no CUDA found, SageAttention is off and PyTorch comes from the CPU index |
| Installer.Major | comfyui_triton_sageattention.py:1032-1033 | the major part has no dot |
| Installer.CheckPytorchCompatibility | comfyui_triton_sageattention.py:1001-1047 | true only for a probe output of exactly three fields whose torch version starts with "2." |
| Installer.ProbeFields | comfyui_triton_sageattention.py:1005-1010 | the probe's printed line splits back into its three fields |
| Installer.CompatibilityOfInstall | comfyui_triton_sageattention.py:1013-1047 | for an installed torch: compatible iff it is 2.x and either the target is "cpu", or CUDA is available with a known torch CUDA version of the same major |
| Installer.QueryCommand | comfyui_triton_sageattention.py:496-513 | a query exists iff the manager is apt, yum, dnf or pacman, and it names the package last |
| Installer.ToInstall | comfyui_triton_sageattention.py:490-520 | only input packages that need installing are returned |
| Installer.ToInstallAppend | comfyui_triton_sageattention.py:490-520 | filtering a concatenation is filtering each part, in order, so the result keeps input order and duplicates |
| Installer.ToInstallSingle | comfyui_triton_sageattention.py:490-520 | a single package is kept iff it needs installing |
| Installer.ToInstallComplete | comfyui_triton_sageattention.py:490-520 | every input package whose query fails, raises or is unknown is returned |
| Installer.UnknownManagerKeepsAll | comfyui_triton_sageattention.py:514-516 | with an unknown manager every package is returned, in order |
| Installer.FilterInstalledPackages | comfyui_triton_sageattention.py:490-520 | the loop computes exactly `ToInstall` |
| Installer.PytorchCommand | comfyui_triton_sageattention.py:986-996 | for CUDA: pip with `--index-url` of the handler's URL and torch==2.7.0, torchvision, torchaudio; for "cpu": plain torch, torchvision, torchaudio |
| Installer.FirstWheel | comfyui_triton_sageattention.py:1163-1177 | the result is the first config for this Python whose wheel installs; None means there is none |
| Installer.TryWheels | comfyui_triton_sageattention.py:1163-1177 | the loop skips other Pythons and stops at the first wheel that installs, returning its URL |
| Installer.ComfyUIInstaller.constructor | comfyui_triton_sageattention.py:839-846 | keeps force and interactive; no packages are recorded |
| Installer.ComfyUIInstaller.InstallPytorch | comfyui_triton_sageattention.py:972-999 | a compatible install is kept unless forced; a forced interactive run is skipped unless the answer is "y"; otherwise `PytorchCommand` runs and the torch packages are recorded iff pip succeeds |
| Installer.ComfyUIInstaller.InstallSageAttention | comfyui_triton_sageattention.py:1129-1188 | a wheel is used iff on Windows some wheel installs (the first one); otherwise the pin "sageattention==1.0.6" is installed from PyPI; "sageattention" is recorded iff one of them succeeded |
| Downloader.Placed | download_models.py:139-162 | a failed download removes only the short file at the target; a fetched file ends at the target; nothing is left at the subdirectory path; no other path changes |
| Downloader.HfStep | download_models.py:133-169 | a present file over 1 MiB is kept untouched; otherwise the report is never Kept, it is Fetched iff the download succeeds, and a failed download leaves every path but the target as it was, with nothing at the target |
| Downloader.HfRun | download_models.py:133-169 | there is one report per file, in order, failures included |
| Downloader.FetchedFileAtTarget | download_models.py:136-162 | a fetched file ends up at its basename below the category directory |
| Downloader.FlatFilePlaced | download_models.py:136-162 | a plain file name lands under its own name |
| Downloader.NestedFileFlattened | download_models.py:134-162 | "sub/name", with `sub` possibly nested ("split_files/vae"), lands at "name" below the category directory, and nothing is left at "sub/name" |
| Downloader.DownloadOne | download_models.py:134-169 | the loop body with its `continue` computes exactly `HfStep` |
| Downloader.DownloadFromHuggingface | download_models.py:123-169 | the loop computes exactly `HfRun` |
| Downloader.CivitaiUrl | download_models.py:192-195 | the URL is under the CivitAI download endpoint |
| Downloader.CivitaiUrlNames | download_models.py:192-195 | the URL names `version_id` when it is present and non-zero, otherwise `model_id` |
| Downloader.AuthHeaders | download_models.py:198-200 | the only possible header is Authorization, present iff the key is non-empty, with value "Bearer " + key |
| Downloader.NsfwHintIff | download_models.py:208 | the NSFW hint is "nsfw" in the lower-cased name |
| Downloader.DownloadFromCivitai | download_models.py:171-211 | a present file over 1 MiB is kept and nothing is requested; otherwise the URL and headers above are requested, and the file is stored iff the download succeeds; a failure carries the NSFW hint |

## Left out

- HTTP, ssh, scp, sshpass, `subprocess`, `os.system`, the TensorDock SDK, `hf_hub_download` and `requests` streaming are not modelled. Their results are parameters.
- In the v2 deployer, a `requests` call that raises is modelled. These are not: a `subprocess` call that cannot start its program, an `open` that fails, and a `response.json()` that does not parse, in either deployer. In tensordock_deploy.py a 2xx body that does not parse makes `_make_request` fail (tensordock_deploy.py:56-62); `Deploy.MakeRequest` returns the decoded body for every 2xx reply.
- JSON `null` is not told apart from an absent key. Both are `None`, and `.get(k, default)` is read as the default. In the source, `.get` returns the default only for an absent key. A null `max_count` or GPU `name` raises in the location scan (tensordock_auto_deploy.py:246-249), and the model reads 0 and "". A null `ssh_port` (tensordock_auto_deploy.py:378) or server `port` (tensordock_deploy.py:158) gives `-p None`, and the model reads 22.
- The no-RTX-4090 listing at tensordock_auto_deploy.py:265-270 prints `gpu['name']`. It raises KeyError for an available GPU without a name, and the model returns `NoRtx4090` there.
- The `Text` helpers cover ASCII only. `IsSpace` stops at U+00A0, while Python's `strip` also removes the other Unicode spaces (U+1680, U+2000–U+200A, U+2028, U+2029, U+202F, U+205F, U+3000). `LowerChar` folds A–Z only. `ParseInt` takes ASCII digits only, while `int()` accepts any Unicode decimal digit, so a selection such as "١" is `InvalidInput` in the model.
- Printing, logging, tqdm progress and the float GB figures are output only and are not modelled.
- The JSON files written (`server_info.json`, the setup scripts in /tmp) are not modelled. Only the saved record's contents are (`ConnectionInfo`).
- Real time and the time a request takes are not modelled. Only the sleeps advance the clock.
- The SDK path of the v2 deployer (`deploy_server`, `list_available_gpus`) is outside the modelled core, and so are both `main` functions with their argparse handling.
- The cloud-init template of `generate_cloudinit_script` is not modelled beyond the line carrying the escaped key.
- The public key file read for the payload is not modelled. Its first line is a parameter.
- The key paths under the operator's home directory are not modelled. The key path is a parameter.
- Windows and Linux CUDA detection are not modelled: they run nvcc and apply a regular expression. Their result enters `DetectAndSetupCuda` as an optional string.
- Build-tool installation, the Python environment setup (venv, include/libs download), Triton installation, cleanup and `install()`/`run_comfyui` are not modelled. They are file-system and process effects outside the decision logic.
- In `clone_and_install_repositories`, the SageAttention source build and the cloning of custom nodes are not modelled. The model stops at `SourceBuildNeeded`.
- `_get_torch_version` and `_get_cuda_version_from_torch` are not modelled: the wheel loop never uses their results. Both catch their own errors and return the defaults "2.7.0" and "128", so nothing they raise reaches the wheel step.
- The `main` of download_models.py is not modelled. It is a loop over the two fixed model tables calling the two download functions, plus a storage summary.
- `hf_hub_download` is assumed to write the file at the repository path below the local directory. The model covers that placement only.
- Directories are not entries of the file map.
- Downloader.DownloadFromCivitai: a download that fails after the file was opened leaves a partial file in the source. The model treats every failed download as leaving nothing at the target.
- Deploy.TensorDockDeployer.SetupAndDeployComfyUI: each remote command is its own ssh session, so the `cd /root/comfyui` command has no effect on the later commands. The model records the commands as issued and does not interpret them.
- AutoDeploy.EnvKeyLine: the generated script puts the key line inside a quoted here-document (`<< 'ENVEOF'`), where the shell performs no quote removal. The round trip in `EscapedKeyRoundTrip` describes the escaping as a single-quoted shell word, not what that here-document writes to `.env`.
