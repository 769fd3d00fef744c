# Verified model of the image-upload server

This project models the concurrent core of an image-upload server written in C++ and proves
properties of it with Dafny 4.11. `dafny verify dfyconfig.toml` checks all of it.

A client uploads an image. The server hashes it, looks whether that image is already stored,
and otherwise resizes it to a list of widths and saves every width in a list of formats. All of
this runs as a group of tasks on one pool of worker threads. Several uploads of the same image
must not process it twice: the first one registers the hash, the others wait for its notifier and
then read the result back from the names in the stored folder.

## What is modelled

Every concurrent part is a state machine whose steps are the atomic operations of the code, so a
run is any interleaving of any number of threads. Theorems are about all runs or all reachable
states. The machines build on each other:

- `TaskGroups` is `task_group`: an atomic state, a 16-bit counter that wraps around, and for every
  task a program counter through the wrapper lambda. `TaskGroupInvariant`, `TaskGroupTheorems` and
  `TaskGroupErrors` prove its counting, its callbacks, its exact capacity and what is still added
  after an error. `TaskGroupObject` is the same code as a class with fields, each of whose methods is
  shown to perform a run of the machine.
- `Fanout` adds what the bodies of one upload do: check, load, N resizes, N * F saves, on a shared
  `dimensions` vector and a staged folder. `FanoutInvariant`, `FanoutTheorems`, `FanoutCapacity` and
  `FanoutSuccess` prove that the result does not depend on the schedule, when the counter suffices,
  and that an upload in which nothing went wrong can succeed. `ImageProcessorObject` is the
  sequential reference: the processor as a class, with the loops of the code over its fields.
- `Server` adds all uploads: the map of registered hashes, the notifiers, `finalize` and the data
  directory. `ServerInvariant` and `ServerTheorems` prove its safety for the intended guard of
  `finalize`; `ServerFaults` says exactly which uploads fail, and that a stored image is answered;
  `ServerGuard`, with the runs constructed in `ServerCrash`, `ServerCounterexample` and
  `CheckRuns`, says exactly for which uploads the guard as written is safe too.
- `Scheduler` puts the server on `n` workers with one FIFO queue. `SchedulerProgress`,
  `SchedulerRuns`, `SchedulerTermination`, `SchedulerDeadlock` and `SchedulerTheorems` prove
  progress, termination and the exact condition for deadlock.
- `ThreadPools` and `ThreadPoolTheorems` are the pool itself: workers, mutex, condition variable,
  deque and shutdown; `ThreadPoolShutdown` proves exactly when a shutdown brings every worker to its
  exit; `ThreadPoolObject` is it as a class, whose methods are runs of that machine.
- `Disks`, `StorageFs` and `Staging` are the file-system backend: the classes of the source, over a
  file system that is a map from paths to nodes with atomic operations, and any number of staged
  folders in any interleaving.
- `Text`, `UploadNames`, `Sorting`, `ExistingData` and `RoundTrip` are the names in the stored folder
  and their reading back; `StoredReplies` puts them together with the tasks that write the folder and
  with the server that answers from it.
- `Sizes`, `SizeText`, `ConfigFold`, `ConfigTheorems`, `ConfigFiles` and `ConfigKeys` are the size
  arithmetic, its text form and the configuration file, key by key; `ByteSizes` is `parse_bytes`, and
  `ConfiguredUploads` says what a file means for the uploads.
- `HttpConnections` is the race of the processing, its deadline and early refusals to answer one
  connection; `UploadRequests` is the product of the server with one connection for each upload.

libvips, libmagic and the configuration enter as functions (`Fanout.Job`), the random suffix of a
temporary name and the transliteration of a file name as parameters.

## Where the code and its intent differ

- `finalize` tests that the upload has a notifier, not that it owns the hash
  (`src/image_processing.hpp:109`). The protocol is proved for the ownership rule. The code as
  written keeps it, and does not crash, if and only if no two uploads have the same hash
  (`ServerGuard.GuardAsWrittenIsExact`): with two uploads of one image, both of which go well, a run
  commits a null `temp_folder`. `ServerCounterexample.TwoOwners` and `ServerGuard.InterruptedFinalize`
  are other ways in which it goes wrong.
- The documentation of `task_group` promises that nothing is added or started after an error
  (`src/thread_pool.hpp:93-101`). Nothing is started (`TaskGroupErrors.NoneStartsAfterTheEnd`), but
  tasks are added exactly if some `add_task` had loaded `Running` before
  (`TaskGroupErrors.NothingAddedIsExact`, `AddedAfterErrorIsBounded`, `AddedAfterError`).
- `pending_tasks` is an `int16_t`. It is exact up to 32767 pending tasks and no further
  (`TaskGroupTheorems.CapacityIsExact`, `FanoutCapacity.CounterCapacityIsExact`).
- A percentage size with limit 0 never terminates (`Sizes.TerminationIsExact`); the documented domain
  is positive limits, but the parser accepts 0 (`SizeText.EndlessIsAccepted`).
- Of a decrement in pixels the parser checks one character, and `--back != 'p'` accepts a final `q`
  (`SizeText.SuffixIsExact`); a negative decrement becomes a huge one (`SizeText.NegativeIsExact`).
- Waiting uploads block workers: with as many repeated uploads as workers the server can deadlock
  (`SchedulerTheorems.DeadlockBoundIsExact`).
- `blocking_shutdown` sets its flag without the mutex, so a worker can miss the only notification. It
  is sure to return only if it is called while all workers sleep
  (`ThreadPoolShutdown.ShutdownIsExact`); on a pool that has just been created it can hang
  (`ThreadPoolShutdown.FreshPoolCanHang`).
- `storage_fs::validate` accepts directories of which one lies in the other. `init` then deletes
  stored files (`StorageFs.StartKeepsDataIsExact`, `SafeSettingsAreExact`), or can never succeed
  (`StorageFs.ValidateIsExact`).
- `stop_processing_on_deadline` answers the client and stops nothing
  (`UploadRequests.TimedOutIsStillProcessed`).
- `listen_port` is an `unsigned short` read as an `int`, so an accepted port loses its upper bits
  (`ConfigKeys.PrintedNumbersAreSet`).
- `parse_bytes` wraps around at 4 GiB without a word (`ByteSizes.PrintedBytesComeBack`).
- Numbers in the names of stored folders may be followed by anything (`ExistingData.DimensionsAre`).
- `get_formats` may repeat a format (`ConfigTheorems.FormatsRepeatIsExact`), and with an accepted file
  does (`ConfigFiles.FormatsCanRepeat`); the round trip then fails (`RoundTrip.RoundTripIsExact`).

## Model

| member | source | states |
|---|---|---|
| TaskGroupInvariant.StepKeepsInv | src/thread_pool.hpp:143-233 | Every atomic step of adders, workers and `cancel` keeps the invariant: the counter equals the tasks counted modulo 2^16, only the winner of the exchange calls back, zero is reached by one task only, no logic error was thrown |
| TaskGroupTheorems.NoLogicErrors | src/thread_pool.hpp:155-231 | With at most 32767 tasks pending all the way, in every reachable state the counter is exact and none of the five `logic_error` sites was reached, `cancel` allowed at any step |
| TaskGroupTheorems.DoneIsFinal | src/thread_pool.hpp:109-113 | Once `Running` is left the state never changes again, in any continuation |
| TaskGroupTheorems.AtMostOneCallback | src/thread_pool.hpp:191-226 | In every run at most one of `on_error` and `on_finish` is invoked, at most once, and the state says which |
| TaskGroupTheorems.OnFinishIsLast | src/thread_pool.hpp:215-226 | `on_finish` is invoked only when every task ever added returned normally; after it no continuation of the run changes anything |
| TaskGroupTheorems.EndedMeansCalledBack | src/thread_pool.hpp:186-232 | When all wrappers have ended, exactly one callback was made, the one the state says |
| TaskGroupTheorems.CapacityIsExact | src/thread_pool.hpp:105 | Runs that keep at most k tasks pending are free of logic errors if and only if k is at most 32767 |
| TaskGroupErrors.AddedAfterErrorIsBounded | src/thread_pool.hpp:152-168 | From every reachable error state, every continuation adds at most as many tasks as there are `add_task` calls that had already loaded `Running`, and some continuation adds that many |
| TaskGroupErrors.NothingAddedIsExact | src/thread_pool.hpp:93-101 | In a reachable error state the promise that no more tasks are added holds for all continuations if and only if no task and not the creating thread stands between its load of the state and its `fetch_add` |
| TaskGroupErrors.AddedAfterError | src/thread_pool.hpp:93-101 | The documented promise is false: a reachable state in which `on_error` has been called and a task can still be added |
| TaskGroupErrors.NoneStartsAfterTheEnd | src/thread_pool.hpp:168-187 | Once the group has ended, no closure is entered any more: only a task whose own state load came before can still be inside |
| TaskGroupObject.TaskGroup.SetStateIfRunning | src/thread_pool.hpp:109-113 | The exchange succeeds exactly in `Running` |
| TaskGroupObject.TaskGroup.AddTask | src/thread_pool.hpp:151-168 | Uninterrupted, `add_task` is a legal run of the machine that adds the child exactly if the group was running |
| TaskGroupObject.TaskGroup.Start | src/thread_pool.hpp:168-187 | Taking a task and checking the state is a legal run; the body is entered exactly if the group was running, otherwise the task is taken off the counter |
| TaskGroupObject.TaskGroup.Fail | src/thread_pool.hpp:191-213 | The catch block is a legal run that decrements once and calls `on_error` exactly for the first error |
| TaskGroupObject.TaskGroup.Succeed | src/thread_pool.hpp:215-231 | The end of the wrapper is a legal run that decrements once and calls `on_finish` exactly for the last task of a running group |
| TaskGroupObject.TaskGroup.Cancel | src/thread_pool.hpp:143-149 | `cancel` is a legal run that calls `on_error` exactly if the group was running |
| ImageProcessorObject.ImageProcessor.LoadImage | src/image_processing.hpp:173-220 | Stages the original under the detected format and lists every width, height and formats still open |
| ImageProcessorObject.ImageProcessor.Resize | src/image_processing.hpp:146-159 | Sets height and formats of its own index only, and makes the folder of that width unless it exists |
| ImageProcessorObject.ImageProcessor.SaveToFormat | src/image_processing.hpp:127-144 | Writes the one file of its index and format, exactly if the folder exists |
| ImageProcessorObject.ImageProcessor.Process | src/image_processing.hpp:127-220 | One thread doing all the work leaves the dimensions and the tree of the sequential program, with which the theorems compare every interleaving |
| FanoutInvariant.ActKeepsBodies | src/image_processing.hpp:127-220 | Every operation of every body keeps which tasks exist, how far each has come, and what `dimensions` and the staged folder hold because of it |
| FanoutTheorems.RunsAreOk | src/image_processing.hpp:127-220 | So does every run of an upload whose tasks fit the counter, together with the invariant of its group |
| FanoutTheorems.EveryScheduleGivesTheSameResult | src/image_processing.hpp:127-220 | Any interleaving on any number of workers that ends in `on_finish` leaves exactly the dimensions and the staged tree of the sequential program |
| FanoutTheorems.ResultIs | src/image_processing.hpp:127-220 | What that result is, entry by entry: the original as uploaded, under the detected format or else the uploader's extension, and for every size a folder with the image in every format configured for the original's format; nothing else |
| FanoutTheorems.WritersAreAlone | src/image_processing.hpp:206-218 | While a save of an index exists, the resize of that index has written its final dimensions and writes no more |
| FanoutTheorems.BodiesAreNeverStuck | src/image_processing.hpp:131-166 | No operation of a body meets an index out of range or a task that exists already |
| FanoutTheorems.ParentFoldersComeFirst | src/image_processing.hpp:138-155 | Every save finds the folder of its width, so no run fails for a missing folder |
| FanoutSuccess.WorkStaysSound | src/image_processing.hpp:127-220 | Only a body that throws brings an upload nearer to an error: no other step of its tasks does, the writes included |
| FanoutTheorems.TaskCount | src/image_processing.hpp:157-219 | A run adds at most 2 + N * (1 + F) tasks, and exactly that many when a new image succeeds |
| FanoutTheorems.FinishedMeansAllDone | src/image_processing.hpp:161-219 | When a new image's group finishes, every task of the sequential program exists and has run to its end |
| FanoutCapacity.CounterCapacityIsExact | src/thread_pool.hpp:105 | The counter shows the true number of pending tasks in every run of an upload if and only if 2 + N * (1 + F) is at most 32767; for larger uploads a run in which it is wrong is constructed |
| FanoutSuccess.SomeScheduleSucceeds | src/image_processing.hpp:127-220 | Every upload that fits the counter has a schedule that ends in `on_finish` with the complete result |
| ConfiguredUploads.ConfigurationSuffices | src/config.hpp:210-227 | For an upload whose sizes are those of `get_sizes` and whose formats are those of `get_formats`, the counts of the size specifications and the lengths of the two format lists bound the number of tasks, and so guarantee that the counter suffices |
| ConfiguredUploads.ConfiguredSizesAreExact | src/config.hpp:42-133 | The sizes of an accepted configuration can be computed for an image if and only if none of them is a percentage with limit 0 |
| ServerInvariant.NextIsSafe | src/image_processing.hpp:107-321 | Every step of any upload keeps the invariant of check, registry, notifiers, `finalize` and data directory under the ownership rule |
| ServerTheorems.RunsAreSafe | src/image_processing.hpp:107-321 | Hence it holds in every reachable state, for any number of concurrent uploads and failures |
| ServerTheorems.OneOwner | src/image_processing.hpp:289-296 | Each hash has at most one live owner |
| ServerTheorems.RecheckStaysValid | src/image_processing.hpp:306-313 | From its second look until its commit, an owner's target in the data directory stays absent, so the rename finds it absent |
| ServerTheorems.WriteOnce | src/storage/fs.hpp:134-141 | A folder of the data directory never changes again, under either guard |
| ServerTheorems.FoldersAreComplete | src/image_processing.hpp:109-112 | Every folder in the data directory is the complete sequential result of an upload of that hash that succeeded |
| ServerTheorems.WaiterSeesCommit | src/image_processing.hpp:298-304 | A waiter whose owner succeeded finds the data; the throw after the wait happens only if the owner's group ended in an error |
| ServerTheorems.RaisedMeansUnfinished | src/image_processing.hpp:114-119 | A notifier still true belongs to an upload whose `finalize` has not finished |
| ServerTheorems.SuccessIsStored | src/image_processing.hpp:107-124 | An upload that reports success has its hash stored |
| ServerFaults.ErrorIsExact | src/image_processing.hpp:107-321 | In every run, an upload replies an error if and only if an exception was thrown in it, or it looked after its wait and found nothing stored; every other reply is a success, in particular that of an upload whose image is found stored |
| ServerFaults.FailureHasAFault | src/image_processing.hpp:298-304 | Every failure goes back to an exception, in the upload itself or in an owner of the same image that it waited for |
| ServerFaults.NoFaultNoError | src/image_processing.hpp:107-321 | Without an exception in any upload of an image, every reply for that image is a success |
| ServerFaults.StoredImageIsAnswered | src/image_processing.hpp:278-285 | An upload of an image that is stored before it looks: in every continuation without an exception of its own its group does not err, its answer is the stored folder, it processes nothing, and its reply is a success |
| ServerGuard.GuardAsWrittenIsExact | src/image_processing.hpp:107-120 | For uploads that fit the counter, every run of the code as written, any interleaving and any failures, keeps the protocol if and only if the uploads' hashes are pairwise distinct; otherwise, for any two uploads of one hash, a run that dereferences a null staged folder is constructed |
| ServerGuard.InterruptedFinalize | src/image_processing.hpp:109-119 | A failed waiter that enters the guarded block while nobody owns the hash erases the entry of an upload that becomes the owner before its erase |
| ServerGuard.FinalizeAloneIsExact | src/image_processing.hpp:109-120 | `finalize` with the guard as written, run without interruption from a safe state, leaves the protocol intact if and only if no notifier was taken, or the upload owns its hash and has staged what it commits, or it failed while nobody owns the hash |
| ServerCrash.TwoUploadsCrash | src/image_processing.hpp:109-112 | For any two uploads of one image, the first owns the hash and commits, the second waits, succeeds, and commits the staged folder it never had |
| ServerCounterexample.TwoOwners | src/image_processing.hpp:109-120 | For any four uploads of one image, a run of the code as written reaches two live owners |
| SchedulerProgress.Progress | src/thread_pool.hpp:31-39 | With fewer than n workers blocked at the wait and an upload unanswered, some step is enabled |
| SchedulerRuns.NextKeepsQueue | src/thread_pool.hpp:36-50 | Every step keeps the queue listing exactly the queued tasks, once each |
| SchedulerRuns.FirstInFirstOut | src/thread_pool.hpp:36-50 | Over every run of all uploads, the tasks added are the tasks taken, in order, followed by the queue |
| SchedulerTermination.EventLowers | src/image_processing.hpp:127-321 | Every step lowers the measure of remaining check, load, resize and save work of its own upload and moves no other |
| SchedulerTermination.RunsAreFinite | src/image_processing.hpp:127-321 | Every run of the server, on any number of workers, is at most as long as the work there is at the start |
| SchedulerTheorems.MaximalRunsAnswerAll | src/image_processing.hpp:298-316 | A run that cannot go on while a worker is not blocked has answered every upload |
| SchedulerTheorems.BlockedBound | src/image_processing.hpp:298-304 | No more uploads are blocked than repeat the hash of another |
| SchedulerTheorems.DeadlockBoundIsExact | src/image_processing.hpp:298-316 | No reachable state is stuck with an upload unanswered if and only if fewer than n uploads repeat the hash of another; in particular n + 1 uploads of one hash can take all n workers while the owner's `load_image` is queued |
| ThreadPoolTheorems.StepKeepsInv | src/thread_pool.hpp:27-66 | Every step of workers, adders and the closing thread keeps mutual exclusion, the order and count of tasks and the wakeup bound |
| ThreadPoolTheorems.MutualExclusion | src/thread_pool.hpp:32-50 | At most one worker or adder is inside the mutex |
| ThreadPoolTheorems.FirstInFirstOut | src/thread_pool.hpp:36-50 | In every reachable state the submitted tasks are the popped ones followed by the queue, no task is called more often than popped, and `front` is never taken of an empty queue |
| ThreadPoolTheorems.WorkConservation | src/thread_pool.hpp:31-50 | Before shutdown, while a worker sleeps, no more tasks are queued than workers, or a thread about to notify, are on their way; spurious wakeups included |
| ThreadPoolTheorems.NoTaskIsStranded | src/thread_pool.hpp:31-50 | Before shutdown, while a task is queued some worker or adder can go on without anybody's help |
| ThreadPoolTheorems.AtMostOneLateTask | src/thread_pool.hpp:52-61 | After the shutdown flag is set each worker calls at most one more task |
| ThreadPoolTheorems.ClosingRuns | src/thread_pool.hpp:56-64 | After `notify_all` runs are bounded by the steps the workers have left, and no worker begins or ceases to miss the notification |
| ThreadPoolShutdown.ShutdownIsExact | src/thread_pool.hpp:56-64 | Called on a pool in any state of its invariant, `blocking_shutdown` brings all workers to their exit in every run that goes on until nothing can if and only if there are no workers, or all sleep and no `add_task` is about to wake one; otherwise a run in which one misses the notification is constructed |
| ThreadPoolTheorems.JoinReturnsIsExact | src/thread_pool.hpp:61-63 | From `notify_all` on: all workers exit in every run that goes on until nothing can if and only if no worker then stood between its test of the flag and its sleep |
| ThreadPoolShutdown.FreshPoolCanHang | src/thread_pool.hpp:24-66 | In particular the destructor of a pool that has just been created can hang, unless it has no threads |
| ThreadPoolObject.ThreadPool.AddTask | src/thread_pool.hpp:45-50 | Uninterrupted, `add_task` is a legal run that appends the task and wakes one sleeping worker if there is one |
| ThreadPoolObject.ThreadPool.Turn | src/thread_pool.hpp:31-39 | A turn of the worker loop is a legal run that takes the front of the queue, sleeps if the queue is empty, and leaves if the flag is set |
| ThreadPoolObject.ThreadPool.BlockingShutdown | src/thread_pool.hpp:56-61 | Sets the flag, leaves the queue as it is and wakes every worker that sleeps at that moment |
| Disks.RenameMoves | src/storage/fs.hpp:139 | A renamed folder is whole at its target and gone from its source |
| Disks.CreatedIs | src/storage/fs.hpp:30-53 | What can be created in a directory: a file unless a folder is there, a folder unless a file is, nothing if the directory does not exist |
| Disks.RenameIsExact | src/storage/fs.hpp:134-141 | A rename into a directory goes through if and only if the directory exists and the target is absent, or can be replaced |
| StorageFs.StagedFolder.Copy | src/storage/fs.hpp:136 | The copy constructor copies `should_cleanup` too |
| StorageFs.StagedFolder.Destroy | src/storage/fs.hpp:24-28 | The destructor removes the folder exactly if `should_cleanup` is set |
| StorageFs.StorageFs.SetConfig | src/storage/fs.hpp:63-72 | Sets the directory of its key, and refuses any other key |
| StorageFs.StartIsExact | src/storage/fs.hpp:82-88 | Exactly when `init` succeeds, for every disk and every setting |
| StorageFs.ValidateIsExact | src/storage/fs.hpp:74-88 | The settings with which `init` can succeed on some disk are exactly those that `validate` accepts, except a data directory two or more levels inside the temporary one |
| StorageFs.StorageFs.CreateStagedFolder | src/storage/fs.hpp:120-132 | Creates the folder and the object for it, or fails and changes nothing |
| StorageFs.StorageFs.CommitStagedFolder | src/storage/fs.hpp:134-141 | On a copy of the object: the rename, or, when it is refused, the removal of the staged folder by the copy's destructor |
| StorageFs.StorageFs.WalkFolder | src/storage/fs.hpp:90-118 | Lists every entry below a folder of the data directory exactly once, recursively, in any order; none if the folder does not exist |
| StorageFs.DestroyAfterCommit | src/storage/fs.hpp:24-28 | After a successful commit the original object's destructor removes nothing, although it still cleans up |
| StorageFs.RefusedCommitKeeps | src/storage/fs.hpp:134-141 | A refused commit leaves everything elsewhere as it was and nothing staged |
| StorageFs.StartKeepsDataIsExact | src/storage/fs.hpp:82-88 | Whether or not it succeeds, `init` keeps every file stored in the data directory, at any depth, if and only if none lies in the temporary directory, and every folder too if and only if nothing stored does but the temporary directory itself, as a folder |
| StorageFs.SafeSettingsAreExact | src/storage/fs.hpp:74-88 | It keeps every file whatever is stored if and only if neither directory lies in the other, which `validate` does not check, or the temporary one is not set, which it does |
| Staging.StagingConservation | src/storage/fs.hpp:120-141 | Given fresh names, in every run each staged folder is whole in one place, under its temporary or its final name, or has been removed; never both |
| Staging.DataIsForever | src/storage/fs.hpp:24-28 | Nothing in the data directory is ever changed or removed, in particular by the destructors of a folder and of its copy |
| Staging.OnlyRenamesChangeData | src/storage/fs.hpp:134-141 | Only a rename that succeeds changes the data directory, so a run that reports an error leaves no trace in it |
| Text.JoinedNameComesApart | src/utils.hpp:65-81 | Splitting `name.extension` gives the name back if and only if the extension has no dot |
| Text.TakenApart | src/utils.hpp:61-81 | A text without a dot is all name and has no extension; any other is its name, the last dot and a dot-free extension |
| Text.PrintedNumberComesBack | src/utils.hpp:105-115 | Reading a printed number gives it back exactly if it fits an `int`, and otherwise throws `out_of_range`, whatever non-digit follows |
| Text.PrintedNegativeComesBack | src/utils.hpp:105-115 | The same for negative numbers, down to the least `int` |
| Text.NoDigitIsInvalid | src/utils.hpp:105-115 | Text without a digit after at most one minus sign throws `invalid_argument` |
| Text.RemoveCommentAndTrailingWhitespace | src/utils.hpp:93-103 | The result is the text before the first `#` without trailing blanks |
| Text.StrippedIsUnique | src/utils.hpp:83-92 | There is only one such text |
| Text.Sanitizer.PushBack | src/utils.hpp:33-42 | The result is the first `max_length` characters pushed, cleaned |
| Text.SanitizeFilename | src/utils.hpp:51-59 | The cleaned first 64 characters of the transliteration |
| Text.CleanedIs | src/utils.hpp:33-42 | Character by character: letters, digits, `-` and `_` are kept, every other character becomes `_` |
| UploadNames.Construct | src/image_processing.hpp:335-349 | The file name and the extension of an upload are the sanitized parts of the suggested name |
| UploadNames.PlainNamesAreKept | src/image_processing.hpp:335-349 | A plain name is stored as suggested, with an extension or without one |
| UploadNames.StoredNameComesApart | src/image_processing.hpp:335-349 | Whatever was suggested, the stored name with the uploader's extension can be taken apart again |
| UploadNames.DetectFormat | src/image_processing.hpp:177-191 | The detected format is the part of libmagic's answer before the first `/`, and none if it has no answer |
| Text.SanitizedIsPlain | src/utils.hpp:47-50 | A sanitized name has no dot, blank or slash, and sanitizing it again changes nothing |
| Sorting.SortOfListing | src/image_processing.hpp:271 | Listing the formats once each in any order and sorting gives what sorting the owner's formats gives if and only if they have no duplicates |
| Sorting.LeComparesFirstDifference | src/image_processing.hpp:271 | The order is decided by the first character that differs, the smaller first, a prefix before what it begins |
| ExistingData.Answer.FindExistingData | src/image_processing.hpp:231-276 | Finds no folder if and only if the data directory has no entry of that hash; otherwise fills the fields from a listing of the folder, error cases included |
| ExistingData.SearchIsExact | src/image_processing.hpp:231-254 | No folder if and only if there is no listing, and no original if and only if nothing in the listing is a file |
| ExistingData.ReadingIs | src/image_processing.hpp:238-273 | The last file listed is the original and names all files; the reading succeeds if and only if every subfolder can be read, and otherwise fails as the first that cannot |
| ExistingData.ExtensionsAre | src/image_processing.hpp:264-270 | The files of a size are read if and only if all have the name of the original, and give their extensions in order |
| ExistingData.SizeIsRead | src/image_processing.hpp:53-54 | A number in a size name is read as its digits, a negative one modulo 2^64, and refused without digits or with too many |
| ExistingData.DimensionsAre | src/image_processing.hpp:47-57 | A size name without an `x` is refused; otherwise the digits before the first `x` and behind it are the width and the height |
| RoundTrip.SizeNameComesBack | src/image_processing.hpp:47-57 | The name of a size is parsed back if and only if both numbers fit an `int` |
| RoundTrip.NameOfIsInjective | src/image_processing.hpp:138-193 | No two entries of a staged folder have the same name |
| RoundTrip.NewFolderIsRendered | src/storage/fs.hpp:120-132 | A new staged folder stands for the empty tree |
| RoundTrip.WriteKeepsRendered | src/image_processing.hpp:138-193 | Writing an entry under its name keeps the folder on disk in step with the tree |
| RoundTrip.RenameKeepsRendered | src/storage/fs.hpp:134-141 | The commit moves that folder as it is |
| RoundTrip.ListingIs | src/storage/fs.hpp:90-118 | Any listing of the committed folder consists of the original and one folder per width with one file per format |
| RoundTrip.RoundTripIsExact | src/image_processing.hpp:231-276 | In whatever order the committed folder is listed, `find_existing_data` recovers the file name, the original's extension and every (width, height, sorted formats) if and only if the extension and formats have no dot, no format is repeated and all dimensions fit an `int` |
| StoredReplies.RunIsRendered | src/image_processing.hpp:127-193 | At every moment of every run of an upload the staged folder on disk holds the run's tree under its names |
| StoredReplies.AnyScheduleIsReadBack | src/image_processing.hpp:127-276 | Whatever the schedule of the owner's tasks, and in whatever order the committed folder is listed, a later upload reads back the owner's file name, extension, widths, heights and sorted formats if and only if the owner's job is readable |
| StoredReplies.AnsweredByOwner | src/image_processing.hpp:231-316 | In every reachable state an upload answered from the data directory was answered from the complete result of one other upload of its hash, and reads that upload's data back if and only if it is readable |
| StoredReplies.WriteSucceeds | src/image_processing.hpp:138-193 | Every file and folder that a run of the owner creates can be created where it creates it |
| StoredReplies.CommitIsNotRefused | src/storage/fs.hpp:134-141 | The commit of a staged folder whose hash is not stored is not refused |
| StoredReplies.CommitKeepsHolds | src/storage/fs.hpp:134-141 | A commit adds the folder of its hash to what the data directory holds, and keeps the others |
| StoredReplies.SearchFindsTheStored | src/image_processing.hpp:231-316 | With a data directory that holds what is stored, `find_existing_data` finds no folder if and only if the hash is not stored, and otherwise recovers the result of the upload that stored it if and only if that is readable |
| Sizes.GetSizes | src/config.hpp:84-104 | Adds the fixed size itself, whatever the image's width, or the widths after any number of turns of the loop, and nothing else |
| Sizes.GetAllSizes | src/config.hpp:125-133 | The result has exactly the widths that some specification asks for: its fixed size, or a width its loop comes to |
| Sizes.PercentStep | src/config.hpp:97-102 | For image widths the 64-bit arithmetic does not wrap and a percentage step leads to floor(w * (100 - d) / 100) |
| Sizes.TerminationIsExact | src/config.hpp:92-103 | The loop terminates if and only if the step is not a percentage with limit 0 |
| Sizes.SequenceGoesDown | src/config.hpp:80-104 | The widths start at the original, go strictly down and stay at or above the limit |
| Sizes.SequenceIsLoop | src/config.hpp:92-103 | The k-th element of the sequence is the width after k turns of the loop |
| Sizes.Coverage | src/config.hpp:92-103 | Every width between limit and original is covered by a generated width whose successor is below it |
| Sizes.PixelsClosedForm | src/config.hpp:92-103 | In pixels the widths are those between limit and original that a whole number of steps leads to |
| Sizes.PixelCount | src/config.hpp:92-103 | and their number is (original - limit) / step + 1 |
| Sizes.GeometricBounds | src/config.hpp:92-103 | In percent the k-th width w satisfies w * 100^k <= o * (100-d)^k and d * w * 100^k >= d * o * (100-d)^k - 99 * (100^k - (100-d)^k), which limits their number |
| Sizes.OrderDoesNotMatter | src/config.hpp:125-133 | The union does not depend on the order or repetition of the specifications |
| Sizes.UnionSize | src/config.hpp:125-133 | The union has at most as many widths as its parts together |
| SizeText.SplitLoop | src/config.hpp:289-299 | The formats loop computes the one list of comma-free pieces whose join is the text up to one trailing comma |
| SizeText.SplitIsUnique | src/config.hpp:111-123 | Only one list of pieces fits a text |
| SizeText.ParseSpecs | src/config.hpp:111-123 | The parsing loop parses the pieces of the same split in order and stops at the first failure |
| SizeText.SpecIs | src/config.hpp:45-77 | Without a colon a specification is a fixed size; otherwise the limit is before the first colon and the decrement behind it |
| SizeText.PiecesAreExact | src/config.hpp:111-123 | A list is parsed if and only if every piece is, piece by piece, and otherwise fails as its first bad piece does |
| SizeText.AcceptedTerminationIsExact | src/config.hpp:42-103 | For every accepted specification the loop over the widths ends if and only if it is not a percentage with limit 0 |
| SizeText.EndlessIsAccepted | src/config.hpp:42-103 | and `0:D%` is accepted for every D between 1 and 99 |
| SizeText.PrintedSpecComesBack | src/config.hpp:42-78 | `N`, `N:D%` and `N:Dpx` of documented specifications are parsed back |
| SizeText.SuffixIsExact | src/config.hpp:55-75 | Which decrements that begin with a digit are accepted, and as what: a percentage if and only if the text ends in `%` and the number is between 1 and 99, pixels if and only if it ends in `x` or `q`, whatever stands before, and a single `x` or `q` also takes a digit away |
| SizeText.NegativeIsExact | src/config.hpp:55-75 | The same for decrements that begin with a minus sign: never a percentage, and in pixels the number modulo 2^64 |
| SizeText.OthersAreRefused | src/config.hpp:55-75 | No other decrement is accepted |
| SizeText.SizeListRoundTrip | src/config.hpp:45-123 | Printing a list of documented specifications and parsing it gives the list back |
| ByteSizes.Parse | src/config.hpp:141-172 | The 32-bit loop reads digits and one unit at the end as the number of bytes modulo 2^32, and refuses everything else |
| ByteSizes.PrintedBytesComeBack | src/config.hpp:136-172 | A printed number with `B`, `k`, `K`, `M` or `G` comes back times the power of 1024, modulo 2^32; without a unit, with another one, or with anything behind it, nothing does |
| ByteSizes.UploadLimitIs | src/config.hpp:271-272 | An accepted file with `upload_limit` set to n megabytes that fit 32 bits has that limit |
| ConfigFold.Parse | src/config.hpp:232-340 | The loop over the lines computes the fold, final checks and all throws included |
| ConfigTheorems.ParseIsExact | src/config.hpp:244-332 | A file is accepted if and only if every line is valid by itself, no key is repeated, `storage.type` comes first and the result is complete; the configuration is then the lookup of each field under its key |
| ConfigTheorems.OrderDoesNotMatter | src/config.hpp:244-332 | Permuting the lines, with `storage.type` still before the other storage keys, changes neither acceptance nor the configuration |
| ConfigKeys.LineIsExact | src/config.hpp:244-254 | Which lines are skipped, which are refused, and what is key and value of the others |
| ConfigKeys.PrintedNumbersAreSet | src/config.hpp:263-270 | In every accepted file a line with the number n sets `processing_timeout_secs`, `socket_kill_timeout_secs` and `thread_pool_size` to n and `listen_port` to n modulo 2^16 |
| ConfigKeys.TextsAreSet | src/config.hpp:261-288 | In every accepted file the lines of `listen_host`, `auth_token`, `upload_limit`, `sizes` and the storage keys set the field of that name to what they say |
| ConfigKeys.FormatsAreSet | src/config.hpp:288-306 | A `formats.` line sets the list of its format to the pieces of its value, and no other list is set |
| ConfigKeys.GetFormatsOfFile | src/config.hpp:215-227 | What `get_formats` returns for a format when the file lists it, lists all formats, both, or neither |
| ConfigKeys.DefaultsApply | src/config.hpp:178-200 | Every field that no line sets has its default |
| ConfigKeys.AcceptedKeysAreKnown | src/config.hpp:261-309 | An accepted file has no other keys, and a number wherever one is due |
| ConfigKeys.AcceptedInOrder | src/config.hpp:250-288 | No key is set twice, `storage.type` comes before the directories, and every line that is not empty has a `=` |
| ConfigKeys.TimeoutsAreExact | src/config.hpp:324-332 | A complete file with two timeouts is accepted if and only if 0 < processing < kill |
| ConfigTheorems.AcceptedIsComplete | src/config.hpp:300-332 | Every accepted configuration has sizes, formats with non-empty lists, a storage, and kill timeout > processing timeout > 0 |
| ConfigTheorems.DuplicateFormatIsUnreachable | src/config.hpp:303-306 | The throw for a duplicate format is never reached |
| ConfigTheorems.FormatsRepeatIsExact | src/config.hpp:215-227 | `get_formats` repeats a format if and only if one of its two lists does or they overlap, a list that is not configured counting as empty |
| ConfigFiles.EveryChoiceIsConfigurable | src/config.hpp:232-340 | For every two lists of plain format names, a file that lists one for a format and the other for all formats is accepted, and `get_formats` returns the one followed by the other |
| ConfigFiles.FormatsCanRepeat | src/config.hpp:215-227 | A concrete accepted file with which `get_formats` repeats a format |
| HttpConnections.AtMostOneResponse | src/http_connection.hpp:47-94 | Over all interleavings at most one response is started, and it holds the outcome that won the exchange and nothing else |
| HttpConnections.ExactlyOneResponse | src/http_connection.hpp:123-158 | Once the processing has called back, its deadline has fired or the request was refused, and the handlers are through, exactly one response has been started |
| HttpConnections.WinnerIsFinal | src/http_connection.hpp:47-53 | The winner of the exchange is never replaced |
| HttpConnections.ResponseHasItsCause | src/http_connection.hpp:68-94 | A refusal carries the error the request was refused with, a timeout means that the deadline passed, and any other response is what the processing called back with |
| HttpConnections.AnsweredStopsTimers | src/http_connection.hpp:47-53 | Once a response has been started neither timer is armed any more |
| HttpConnections.DroppedResultWasAnswered | src/http_connection.hpp:130-137 | If the connection is gone when the processing calls back, it was answered before |
| UploadRequests.ServerSideIsARun | src/http_connection.hpp:128-158 | In the product of the server with its connections, where the ready hook is the last step of `finalize` and its outcome is the group's, whatever the connections do the uploads make a run of the server and leave it as that run does |
| UploadRequests.ConnSideIsARun | src/http_connection.hpp:128-158 | and every connection makes a run of the respond-once machine |
| UploadRequests.ResponsesAreTrue | src/http_connection.hpp:128-158 | A client that was told of success has its hash stored with the complete result of an upload of that hash; one that was told of an error of the processing has an upload that failed |
| UploadRequests.ResponsesHaveCauses | src/http_connection.hpp:114-158 | Every connection was answered with the error it was refused with, or because its deadline passed, or with what its own upload's hook reported |
| UploadRequests.ErrorsAreToldApart | src/http_connection.hpp:143-157 | The answer is an invalid image if and only if the group was ended by the decoding in `load_image`, and an internal error if it was ended by anything else |
| UploadRequests.InvalidImageWasNotDecoded | src/http_connection.hpp:143-148 | A client told of an invalid image had an upload whose `load_image` threw where it decodes |
| UploadRequests.ErrorResponsesHaveFaults | src/http_connection.hpp:143-157 | A client told of an error was told because of an exception in its upload, or in one of the same image |
| UploadRequests.ConnectionsStopNothing | src/http_connection.hpp:238-259 | Once a request has started its upload, no reachable state of the connection, answered, timed out or closed, disables any step of the upload |
| UploadRequests.TimedOutIsStillProcessed | src/http_connection.hpp:238-259 | Every run of the server is what the uploads do in a run in which every client was first told that its upload timed out, so the same folders are committed |
| UploadRequests.TimedOutCanBeCommitted | src/http_connection.hpp:238-259 | For distinct images, some run commits the complete folder of an upload whose client was told that it timed out |
| HttpConnections.HttpConnection.StartResponse | src/http_connection.hpp:47-53 | Cancels both timers and returns true to the first caller only |
| HttpConnections.HttpConnection.Respond | src/http_connection.hpp:68-94 | Only the first call fills and sends the response |

## Left out

- Server.Next: `image_processor::cancel` is not a step of the server, because nothing in the repository calls it; `cancel` at any step is part of the task group alone.
- Server.FinNext: an exception inside a callback, such as a failing rename, is a crash of the model and proved not to occur under the ownership rule; what the process would do after it is not modelled.
- Server.InitState: the data directory is empty at the start; a folder left by an earlier process enters as one committed by an upload that ended earlier in the same run.
- ThreadPoolShutdown.ShutdownIsExact: speaks of runs without spurious wakeups and without later submissions, either of which could still wake a worker that missed the notification.
- ThreadPoolTheorems.NoTaskIsStranded: says nothing about fairness between workers.
- SchedulerTheorems.DeadlockBoundIsExact: workers are a number and the queue a sequence; that the pool behaves like this is what ThreadPoolTheorems proves separately.
- Sizes.TerminationIsExact: for original widths that fit an `int`, which is where image widths come from; larger ones could wrap around in the 64-bit product.
- Text.SanitizeFilename: works on the characters of the transliteration; the transliteration itself is not modelled.
- SizeText.PrintedSpecComesBack: covers the documented grammar, positive numbers that fit an `int` and percentages below 100.
- RoundTrip.RoundTripIsExact: formats with a slash are not entries of one folder and are not modelled; the original's dimensions, which the code does not read back, are not recovered.
- HttpConnections.ExactlyOneResponse: a response counts as sent once its writing has been started; the socket and its closing by the kill deadline are not modelled.
- Boost.Asio, HTTP and URL parsing, authorization, the accept loop and JSON output.
- libvips, libmagic, SHA-256 and the hash's truncation: functions of their inputs.
- File errors other than missing parents and existing targets, partial writes, and the contents of directories shared with other programs.
- Object lifetimes apart from the connection's, C++ memory ordering (atomics are sequentially consistent), out-of-memory conditions and exceptions that are not `std::exception`.
- Log text, the helper scripts, container files, example front end and test helpers.
