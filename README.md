# ScanVan camera image acquisition, modelled in Dafny

ScanVan's acquisition program drives one or two Basler GigE cameras. At start-up it:

- reads a six-line parameter file;
- keeps the cameras on the first camera's subnet;
- ranks the cameras by serial number;
- loads each camera's two calibration maps.

It then runs a grab worker and a store worker. The grab worker pops one trigger time stamp per step and retrieves one result per camera. It routes each result to image 0 or image 1 by the camera's rank, and pushes the pair to a display queue. The store worker pops pairs from the storage queue until the exit flag is set, then drains that queue. As written, only `DisplayImages` and `DemoLoadImages` raise the exit flag, and `main` runs neither, so neither worker ends after a successful start (see Findings).

The image classes work with owned heap pointers: the raw and the older `Images`-based pair, the `Images` record and the colour image `ImagesCV`.

The model is split into modules that follow the program:

| module | file | models |
|---|---|---|
| `Selection` | camera_selection.dfy | the subnet filter, the serial-number sort and the ranking table |
| `Acquisition` | acquisition.dfy | one acquisition step as a function of the results the array delivers, and its loop |
| `Config` | config.dfy | the parameter file, calibration paths and time stamps |
| `Cameras` | cameras.dfy | the camera object: its fields, initialisation, map loading and the queue operations |
| `Core` | core.dfy | the two worker loops and `main` |
| `Frames`, `ImagesRaw`, `PairImagesRaw`, `Images`, `PairImages`, `ImagesCV` | frames.dfy and the image files | the image records and the pointer-owning pair classes |
| `Text` | text.dfy | the string operations used by the above: `find_last_of`, `substr`, `>>` into a string or an `int`, `operator<` on strings, `%d` |
| `Memory`, `Wrappers` | memory.dfy, wrappers.dfy | the set of live heap objects that `new`/`delete` change, plus Option and Result |

Things outside the program become inputs:

- **Camera SDK.** Transport layer, enumeration, grab results, action command outcome, feature readability and balance ratios.
- **Files.** The file system is a map from path to text file. The calibration map reader is a function from path to an optional byte string.
- **Imaging library.** The Bayer conversion and `remap` are uninterpreted functions on byte strings.
- **Clock.** The clock is a value of `timeval`.

Queues are sequences. An object whose fields change is a class with framed methods; the rest are datatypes and functions.

## Model

| member | source | states |
|---|---|---|
| Selection.FilterSubnet | src/Cameras.cpp:62-77 | The loop returns exactly the reference filter `Usable` and the first device's subnet. |
| Selection.UsableProperties | src/Cameras.cpp:62-77 | The first device is kept. The result is an order-preserving subsequence of the enumeration, all on the first device's subnet, with 1 to `c_maxCamerasToUse` entries. It equals the first device followed by the earliest later devices on its subnet. |
| Selection.KeepIsPrefixOfOnSubnet | src/Cameras.cpp:69-77 | The loop keeps a prefix of the devices on the subnet: as many as the room left. |
| Selection.KeepIsSubsequence | src/Cameras.cpp:69-77 | Everything the loop keeps comes from the enumeration, in order. |
| Selection.OnSubnetIsOnSubnet | src/Cameras.cpp:71-73 | Every device the subnet test admits has that subnet. |
| Selection.TooManyCamerasUnreachable | src/Cameras.cpp:80-82 | The loop guard makes the "more than maxCamerasToUse" throw unreachable for every enumeration. |
| Selection.MissingCamerasAsWrittenNeverShown | src/Cameras.cpp:83-85 | As written, the "Not all the cameras have been detected" warning repeats the `>` test, so it is never shown for any enumeration. |
| Selection.MissingCamerasShownIffFewOnSubnet | src/Cameras.cpp:83-85 | The warning with the intended `<` test is shown exactly when the first device's subnet holds fewer than `c_maxCamerasToUse` cameras. |
| Selection.InsertElements | src/Cameras.cpp:128-130 | One sort step adds exactly the new element to the sequence. |
| Selection.InsertKeepsSorted | src/Cameras.cpp:128-130 | One sort step keeps the sequence ordered by serial. |
| Selection.InsertKeepsDistinct | src/Cameras.cpp:128-130 | One sort step keeps the array indices distinct. |
| Selection.SortBySerialFacts | src/Cameras.cpp:128-130 | The sort keeps length and elements, orders by serial number, and keeps distinct indices distinct. |
| Selection.SortedIndexedFacts | src/Cameras.cpp:99-130 | The sorted vector holds each camera once, in serial order, each entry carrying the serial of the camera it indexes. |
| Selection.Ranking | src/Cameras.cpp:99-135 | The ranking of a list of serials is a permutation of 0..N-1, and the serials taken in its order are nondecreasing. |
| Selection.SortedCameraIdx | src/Cameras.cpp:99-135 | The loops compute `Ranking` of the serials: a permutation of 0..N-1 whose serials, taken in its order, are nondecreasing. |
| Selection.SmallPermutationIsInvolution | src/Cameras.cpp:133-135 | With at most two cameras the ranking is its own inverse. |
| Selection.RoutingByArrayIndexIsSound | src/Cameras.cpp:439 | With at most two cameras, testing the ranking at the result's array index selects exactly the camera ranked first. |
| Selection.RoutingByArrayIndexNeedsTwoCameras | src/Cameras.cpp:439 | With three cameras it would not: ranking [1, 2, 0] admits camera 2 although camera 1 is ranked first. |
| Text.FindLastOf | src/Cameras.cpp:601 | `find_last_of(':')` gives the last index holding a colon, and npos exactly when there is none. |
| Text.TokenOfIsTextAfterLastColon | src/Cameras.cpp:601 | The token is the text after the last `:`. With no `:`, it is the whole line, since npos + 1 wraps to 0. |
| Text.TokenOfKeyValue | src/Cameras.cpp:601 | For `key:value` with no colon in the value, the token is exactly the value. |
| Text.FirstWordIsLeadingWord | src/Cameras.cpp:602-603 | `>>` into a string fails exactly on an all-blank text. Otherwise it reads the first word, bounded by white space. |
| Text.FirstWordOfWord | src/Cameras.cpp:602-603 | A non-empty word without white space reads back as itself. |
| Text.LexLessIrreflexive | src/Cameras.cpp:128-130 | The serial comparison `operator<` is irreflexive. |
| Text.LexLessTrichotomy | src/Cameras.cpp:128-130 | The serial comparison is total. |
| Text.LexLessAsymmetric | src/Cameras.cpp:128-130 | The serial comparison is asymmetric. |
| Text.LexLessTransitive | src/Cameras.cpp:128-130 | The serial comparison is transitive, so it is a strict weak order, as `std::sort` requires. |
| Text.LexLeqTotal | src/Cameras.cpp:128-130 | "Not after" is total. |
| Text.LexLeqTransitive | src/Cameras.cpp:128-130 | "Not after" is transitive. |
| Text.ParseDecimalOfDecimal | src/Cameras.cpp:759 | Reading back the digits `%d` prints gives the number. |
| Text.DecimalInjective | src/Cameras.cpp:759 | Different numbers print differently. |
| Text.SignedDecimal | src/Cameras.cpp:424 | A printed integer is non-empty, has no colon, and does not start with white space. |
| Text.ToInt32 | src/Cameras.cpp:433 | Narrowing the 64-bit gain chunk to `int` lands in the 32-bit range, agrees modulo 2^32, and keeps values already in range. |
| Text.ExtractIntOfDigits | src/Cameras.cpp:611-612 | When the digits after the blanks and an optional sign are exactly the decimal digits of n, `>>` into an `int` reads n, negated after a `-`, clamped to the `int` range. |
| Text.ExtractIntOfSignedDecimal | src/Cameras.cpp:611-612 | Reading back any printed `int` gives the value. |
| Text.ExtractIntOfNonNumber | src/Cameras.cpp:611-612 | A text that does not start with a sign or a digit reads as 0. |
| Config.ReadSettings | src/Cameras.cpp:596-649 | The six reads, in order, give `ReadConfig`. Each field comes from its line's token; a failed string extraction keeps the previous value. |
| Config.SettingOfKeyValue | src/Cameras.cpp:600-601 | Line k of a `key:value` file yields value k. |
| Config.FlagRoundTrip | src/Cameras.cpp:611-613 | A flag written as 0 or 1 reads back as itself. `static_cast<bool>` is true exactly when the integer is nonzero. |
| Config.RenderedSettings | src/Cameras.cpp:600-647 | A rendered file yields, line by line, the six values written. |
| Config.ReadConfigOfSettings | src/Cameras.cpp:596-649 | Six lines holding the settings of `c` read back as `c`, with exposure and gain as their opaque extractions, whatever the prior state. |
| Config.ReadConfigOfRendered | src/Cameras.cpp:596-649 | Round trip: rendering a configuration as six `key:value` lines and reading it gives it back, for every key and every prior state. |
| Config.ReadConfigKeepsPathWithoutWord | src/Cameras.cpp:600-603 | A data path line whose token is blank leaves the previous data path. |
| Config.CalibrationPathLayout | src/Cameras.cpp:665-670 | A calibration path is `path_cal`, then `calibration_`, then the serial, then `/map1.xml` or `/map2.xml`. |
| Config.CalibrationPathInjective | src/Cameras.cpp:665-686 | Different serials or map files give different paths. |
| Config.SplitMicros | src/Cameras.cpp:752-753 | `milli * 1000 + micro == tv_usec` with `micro < 1000`, and `milli < 1000` for a valid `tv_usec`. |
| Config.StampTextFields | src/Cameras.cpp:759 | The stamp's last token is the microsecond digits, and the token before it is the millisecond digits. |
| Config.ReadStampOfStampText | src/Cameras.cpp:759 | Reading the two numeric parts back from a stamp gives the parts printed. |
| Config.ReadStampOfStampTextDigits | src/Cameras.cpp:759 | The parts read back are the values of the printed digit strings. |
| Config.StampTextInjective | src/Cameras.cpp:759 | For the same local time, different parts give different stamps. |
| Config.StampTimeInjective | src/Cameras.cpp:749-762 | Within one second, different microsecond values give different stamps. |
| Acquisition.AcquirePair | src/Cameras.cpp:341-466 | The loop yields the two images of `Grab` when every result is accepted, and otherwise `Grab`'s error. |
| Acquisition.CollectOkIff | src/Cameras.cpp:382-466 | The loop completes exactly when every remaining retrieval is accepted. |
| Acquisition.GrabSucceedsIff | src/Cameras.cpp:382-469 | A step yields a pair exactly when all N retrievals succeed and, with chunk features, carry chunk data. |
| Acquisition.CollectErrorIsFirstFailure | src/Cameras.cpp:389-465 | A failing step reports the error of the first retrieval that is not accepted. |
| Acquisition.CollectStamps | src/Cameras.cpp:439-457 | With software triggering, each image is either untouched or carries the popped stamp. |
| Acquisition.SoftwareTriggerStampsEveryImage | src/Cameras.cpp:441-450 | With software triggering, every image that got a result carries the one trigger stamp the step popped. |
| Acquisition.CollectLastWriter | src/Cameras.cpp:382-457 | A slot ends as written by the last result routed to it, or as prepared when no result is routed to it. |
| Acquisition.FirstRankedCameraFillsFirstImage | src/Cameras.cpp:439-447 | The smallest-serial camera's frame lands in `img0`. `img0` also gets rank 0, that camera's serial, the first balance values and the popped stamp. |
| Acquisition.SecondRankedCameraFillsSecondImage | src/Cameras.cpp:448-456 | With two cameras, the second-ranked camera's frame lands in `img1`, with its serial and the second balance values. |
| Acquisition.OneCameraPairHasNoSecond | src/Cameras.cpp:341-378 | With one camera, every pair's second image is the default-constructed one with an empty buffer, so the pair counts as having no second image. |
| Acquisition.DuplicateContextStillEmitsPair | src/Cameras.cpp:382-457 | No check that results come from distinct cameras: two results from camera 0 still give a pair, whose second image received no frame. |
| Cameras.LoadMaps | src/Cameras.cpp:661-741 | Loading succeeds exactly when all needed map reads succeed; the maps are then the values read, and with one camera slot 1's maps equal slot 0's. The first failing read gives its message and leaves the later maps as they were. |
| Cameras.LoadMapsIgnoresPrior | src/Cameras.cpp:661-741 | Whether loading succeeds, and the maps of a successful load, do not depend on what the map fields held before. |
| Cameras.ConnectSucceedsIff | src/Cameras.cpp:25-43 | The steps after the parameter file succeed exactly when there is a transport layer and a device, no device call throws, every camera in use can switch chunk mode on when chunk features are used, and every camera in use, whatever its rank, has both calibration maps. |
| Cameras.ConstructionSucceedsIff | src/Cameras.cpp:25-43 | Construction succeeds exactly when the parameter file opens, no device call throws, and the later steps succeed with the calibration directory that file sets. |
| Cameras.SecondMapMessagesCoincide | src/Cameras.cpp:694-738 | A failure of the first camera's second map and of the second camera's second map report the same message. |
| Cameras.SerialsOf | src/Cameras.cpp:117-124 | The serials by array index are those of the devices used, in order. |
| Cameras.CheckChunks | src/Cameras.cpp:235-257 | Chunk support is confirmed exactly when every camera's chunk mode is writable. |
| Cameras.Cameras.GetNumCam | src/Cameras.cpp:745-747 | After initialisation, one or two cameras are in use. |
| Cameras.Cameras.Default | src/Cameras.cpp:25-32 | The default constructor: no parameter loading, the default configuration directory, default settings and empty queues. |
| Cameras.Cameras.WithConfigPath | src/Cameras.cpp:34-43 | The constructor with a configuration directory sets parameter loading and that directory. |
| Cameras.Cameras.Start | src/Cameras.cpp:25-43 | The constructors' three steps end with exactly the message of the first failing step: no parameter file, no transport layer, no cameras, a configuration exception, no chunk mode, a start exception, or the first unreadable map, the maps found under the directory the file sets. The settings are what the file gives. Success leaves the usable devices, ranked by serial, the balances of the cameras ranked first and second, and their maps. The queues and the exit flag are untouched. |
| Cameras.Cameras.Connect | src/Cameras.cpp:30-31 | `Init` followed by `LoadMap` ends with exactly the message of the first failing check or read. Success leaves the usable devices ranked by serial, the balances of the cameras ranked first and second, and the maps read from those cameras' paths. |
| Cameras.Cameras.LoadCameraConfig | src/Cameras.cpp:592-656 | A file that cannot be opened throws and changes nothing. Otherwise the settings are what the six lines give. |
| Cameras.Cameras.Init | src/Cameras.cpp:45-283 | The no-transport-layer and no-cameras errors; the subnet, the serials of the usable devices and their ranking by serial; the configuration exception, then the chunk check's error, then the start exception; and the balances of the cameras ranked first and second. The missing-cameras warning is reported with the intended `<` test (see Findings). |
| Cameras.Cameras.SelectCameras | src/Cameras.cpp:62-135 | The subnet filter followed by the ranking: the serials of `Usable`, and their `Ranking`. |
| Cameras.Cameras.LoadMap | src/Cameras.cpp:658-743 | The map fields and the error are what `LoadMaps` gives for the calibration paths of the cameras ranked first and second. |
| Cameras.Cameras.IssueActionCommand | src/Cameras.cpp:285-320 | Exactly one stamp, taken before the command, is appended when the command succeeds; the queue is unchanged when it throws. |
| Cameras.Cameras.GrabImages | src/Cameras.cpp:322-488 | Software trigger pops exactly one stamp, external trigger none. On success exactly `Grab`'s pair is pushed; on failure nothing is pushed and the error is caught. |
| Cameras.Cameras.DisplayImages | src/Cameras.cpp:490-516 | One pair is popped. ESC raises the exit flag and pushes that pair to the storage queue; any other key changes neither. |
| Cameras.Cameras.StoreImages | src/Cameras.cpp:548-555 | One FIFO pop from the storage queue. |
| Cameras.Cameras.SetDataPath | src/Cameras.hpp:82-84 | Only the data path changes. |
| Cameras.Cameras.GetExitStatus | src/Cameras.hpp:100-102 | Reports the exit flag. |
| Cameras.Cameras.ImgQueueEmpty | src/Cameras.hpp:94-96 | True exactly when the storage queue is empty. |
| Cameras.DisplayEscapeAsWritten | src/Cameras.cpp:496-509 | As written, the pair pushed on ESC has been moved from: both slots are null, and copying it is undefined. |
| Core.EmittedOnePerSucceedingRound | src/Core.cpp:78-84 | The grab worker pushes at most one pair per round, and one for every round exactly when every step succeeds. |
| Core.GrabRound | src/Core.cpp:80-81 | One loop turn pops round k's stamp and pushes round k's pair, if any. |
| Core.GrabWorker | src/Core.cpp:78-84 | The loop runs until the exit flag is set. The display queue gains the pairs of all rounds run, in order; with software triggering one stamp is popped per round. |
| Core.StoreWorker | src/Core.cpp:86-95 | Loop, then drain: the pairs popped are the storage queue's contents in FIFO order, and the queue ends empty. |
| Core.CurrentWorkingDir | src/Core.cpp:38-46 | The working directory, or the "could not be determined" error exactly when `getcwd` fails. |
| Core.ConfigDirectory | src/Core.cpp:105 | The configuration path is the working directory followed by `/config/`. |
| Core.Construct | src/Core.cpp:108-111 | The cameras are constructed with the default configuration directory and default settings, and the error is exactly the first failing construction step. On success the data directory is set, the cameras are ready for the grab worker, the queues are empty and the exit flag is down. |
| Core.GrabWorkerUnstopped | src/Core.cpp:78-84 | Over any number of rounds that no other thread interrupts, the exit flag stays down, so the loop goes on. The display queue gains those rounds' pairs. |
| Core.Run | src/Core.cpp:97-132 | A `getcwd` failure escapes `main`. Otherwise `main` exits with 1 exactly when construction throws, and never returns exactly when construction succeeds. It never returns 0. |
| Core.IssueTriggers | src/Cameras.cpp:285-320 | The added trigger thread appends the stamp of each reading to the trigger queue, in order, one per successful action command. |
| Core.RunWithDisplay | src/Cameras.cpp:6-9 | With the trigger and display threads the design calls for, `main` returns 1 exactly when construction throws, and 0 exactly when it succeeds. |
| ImagesRaw.ImagesRaw.constructor | src/PairImagesRaw.cpp:13-16 | A default raw image is the empty frame with default metadata. |
| ImagesRaw.ImagesRaw.Copy | src/PairImagesRaw.cpp:18-21 | A copied raw image holds the same frame. |
| ImagesRaw.ImagesRaw.SetImgNumber | src/PairImagesRaw.cpp:110-115 | Only the image number changes. |
| PairImagesRaw.PairImages.constructor | src/PairImagesRaw.cpp:13-16 | Two fresh empty images, both owned. |
| PairImagesRaw.PairImages.OfPair | src/PairImagesRaw.cpp:18-26 | Two fresh copies of the given images. |
| PairImagesRaw.PairImages.OfOne | src/PairImagesRaw.cpp:28-36 | A fresh copy of the image and an empty second slot, which counts as absent. |
| PairImagesRaw.PairImages.Copy | src/PairImagesRaw.cpp:38-41 | Requires both source slots non-null. Makes fresh deep copies equal to the source. |
| PairImagesRaw.PairImages.Move | src/PairImagesRaw.cpp:43-48 | Takes the source's pointers and nulls the source's slots. |
| PairImagesRaw.PairImages.SavePair | src/PairImagesRaw.cpp:103-108 | Slot 0 is always saved. Slot 1 is saved only when its buffer is non-empty. |
| PairImagesRaw.SaveSingle | src/PairImagesRaw.cpp:103-108 | A pair built from one image saves exactly that image. |
| PairImagesRaw.PairImages.SetImgNumber | src/PairImagesRaw.cpp:110-115 | Slot 0 is always numbered, slot 1 only when its buffer is non-empty. No other field changes. |
| PairImagesRaw.PairImages.Assign | src/PairImagesRaw.cpp:117-125 | Self-assignment changes nothing. Otherwise both old slots are released and fresh deep copies taken, the source is unchanged, and no slot is owned twice. |
| PairImagesRaw.PairImages.MoveAssign | src/PairImagesRaw.cpp:127-137 | Self-assignment changes nothing. Otherwise the old slots are released, the source's pointers taken and the source nulled. |
| PairImagesRaw.PairImages.Destroy | src/PairImagesRaw.cpp:139-142 | Releases exactly the owned slots. |
| Images.Images.constructor | src/Images.hpp:35-47 | A fresh record: height and width 3008; index, exposure, gain, balances, flags and number 0; empty strings. |
| Images.Images.Copy | src/Images.hpp:55 | A copy equals the original in every field and the buffer. |
| Images.Images.GetImgBufferSize | src/Images.hpp:85 | The length of the owned pixel buffer. |
| Images.Images.SetHeight | src/Images.hpp:58 | Only the height changes, and the getter returns it. |
| Images.Images.SetWidth | src/Images.hpp:59 | Only the width changes, and the getter returns it. |
| Images.Images.SetCameraIdx | src/Images.hpp:60 | Only the camera index changes, and the getter returns it. |
| Images.Images.SetCaptureTime | src/Images.hpp:61 | Only the capture time changes, and the getter returns it. |
| Images.Images.SetExposureTime | src/Images.hpp:62 | Only the exposure time changes, and the getter returns it. |
| Images.Images.SetGain | src/Images.hpp:63 | Only the gain changes, and the getter returns it. |
| Images.Images.SetBalanceR | src/Images.hpp:64 | Only the red balance changes, and the getter returns it. |
| Images.Images.SetBalanceG | src/Images.hpp:65 | Only the green balance changes, and the getter returns it. |
| Images.Images.SetBalanceB | src/Images.hpp:66 | Only the blue balance changes, and the getter returns it. |
| Images.Images.SetAutoExpTime | src/Images.hpp:67 | Only the auto exposure flag changes, and the getter returns it. |
| Images.Images.SetAutoGain | src/Images.hpp:68 | Only the auto gain flag changes, and the getter returns it. |
| Images.Images.SetSerialNumber | src/Images.hpp:69 | Only the serial number changes, and the getter returns it. |
| Images.Images.SetImgNumber | src/Images.hpp:70 | Only the image number changes, and the getter returns it. |
| Images.Images.Preview | src/Images.hpp:110-114 | Requires at least ten buffer bytes. Prints bytes 0..9 as integers 0..255. |
| Images.FreshRecordWithImgNumber | src/Images.hpp:35-47 | Setting the image number of a fresh record keeps every other default. |
| PairImages.PairImages.constructor | src/PairImages.cpp:5-8 | Two fresh `Images` with default metadata and the given buffers, both owned. |
| PairImages.PairImages.OfPair | src/PairImages.cpp:10-18 | Two fresh copies of the given images. |
| PairImages.PairImages.Copy | src/PairImages.cpp:20-23 | Requires both source slots non-null. Makes fresh deep copies equal to the source. |
| PairImages.CopyIsIndependent | src/PairImages.cpp:20-23 | Changing a copy leaves its source as it was. |
| PairImages.PairImages.Move | src/PairImages.cpp:25-30 | Takes both pointers and nulls the source. |
| PairImages.PairImages.SavePair | src/PairImages.cpp:37-40 | Both slots are saved unconditionally. |
| PairImages.PairImages.Assign | src/PairImages.cpp:42-50 | Self-assignment is a no-op. Otherwise both old slots are released and fresh deep copies taken, with the source unchanged. |
| PairImages.PairImages.MoveAssign | src/PairImages.cpp:52-62 | Self-assignment is a no-op. Otherwise the old slots are released, the pointers transferred, and the source nulled. |
| PairImages.PairImages.Destroy | src/PairImages.cpp:64-67 | Releases exactly the owned slots. |
| ImagesCV.ImagesCV.constructor | src/ImagesCV.cpp:5-7 | Default metadata and a fresh empty, owned buffer. |
| ImagesCV.ImagesCV.FromRaw | src/ImagesCV.cpp:9-31 | Every metadata field is copied unchanged. The pixels are the Bayer conversion, taken at the default 3008×3008 size that is in force before height and width are copied. |
| ImagesCV.ImagesCV.Copy | src/ImagesCV.cpp:33-53 | A fresh buffer with the same pixels, and the same metadata. |
| ImagesCV.ImagesCV.Move | src/ImagesCV.cpp:55-74 | Takes the buffer pointer and nulls the source's. Metadata is copied. |
| ImagesCV.ImagesCV.Remap | src/ImagesCV.cpp:104-114 | A newly allocated remapped buffer is installed and exactly the old one released. Metadata is unchanged. |
| ImagesCV.ImagesCV.Destroy | src/ImagesCV.cpp:117-119 | Releases exactly the buffer currently owned, if any. |

## Left out

- Camera SDK (Pylon):
  - Each device call becomes an input: enumeration, the chunk-mode and balance-ratio reads, action commands and result retrieval.
  - The other device calls of `Init` can throw, which the model keeps as two optional messages in `Cameras.Environment`. `configureError` covers attaching, trigger configuration, opening and the feature writes (src/Cameras.cpp:106-231); it is raised before the chunk check. `startError` covers the chunk selector and enable writes, the balance-ratio selector writes and `StartGrabbing` (src/Cameras.cpp:250-281); it is raised after the chunk check.
  - The model takes every camera's chunk check before the first chunk write. So if one camera's chunk write throws and a later camera lacks chunk mode, the source reports the write's message and the model reports the chunk message. Construction fails either way.
  - `IsGrabbing` is taken to be true throughout a step: grabbing starts at the end of `Init` and stops only in the destructor.
  - `DeviceKey` from `srand`/`rand` is not modelled.
- `SaveParameters` and `LoadParameters` are not modelled: they only pass files to the SDK's feature persistence.
- Imaging library (OpenCV):
  - Colour conversion, `remap`, concatenation, windows and `waitKey` are uninterpreted functions or inputs.
  - Reading a map file is success with bytes, or failure.
  - The display routines (`showPair`, `showPairConcat`, `show`, `DemoLoadImages`) and the conversions inside `DisplayImages` are UI and not modelled.
- Floating point and wide integers:
  - Exposure time, balance ratios and `equiToPinhole`'s parameters are carried as opaque `real`s, never computed on.
  - The extraction of a `double` and an `int64_t` from the parameter file is an opaque function of the token.
  - No `size_t` wrap-around is modelled except `npos + 1`.
- Threads and the queue implementation:
  - Threads are not modelled. The workers run one after the other.
  - The point at which another thread would raise the exit flag is an input: the number of rounds, or of pops.
  - `wait_pop` requires a non-empty queue.
  - `main` as written starts no thread that issues action commands or displays pairs. Core.Run shows that it then never returns after successful construction, through the first rounds of the grab loop. The unbounded rest of the loop is not modelled.
  - In Core.RunWithDisplay, the display thread is represented only by the exit flag it raises after the last round. The pairs it would show and push on ESC are not modelled, so the storage queue stays empty.
  - Core.RunWithDisplay: `Exited(0)` is proved for one schedule only. In it every action command is sent, there is one trigger per round, and the flag is raised right after the last round. The design's shutdown hazard is outside it: a grab thread still blocked on the trigger queue after the trigger thread has stopped.
  - Each grab round's external-trigger clock readings are an input function, shared by all rounds.
- Core.Run: `main` computes a configuration directory from the working directory but does not pass it on. The model computes it and then constructs the cameras with the default directory, as the code does.
- `ImagesRaw.cpp` and `ImagesRaw.hpp` are not part of this model:
  - `ImagesRaw` is modelled from its uses: a frame with metadata and a buffer, copied by value.
  - Its `saveData` is recorded as a `(path, frame)` entry.
  - `Images`' copy constructor and the buffer copy routines have no bodies in the headers. They are taken to copy every field and the buffer.
- The headers are partly stale with respect to the `.cpp` files, and the `.cpp` bodies are followed:
  - `Cameras.hpp` has no trigger, display or storage queue;
  - `imgQueueEmpty` there tests `imgQueue`, and the model reads it as the storage queue;
  - `ImagesCV.hpp` declares an inline `cv::Mat`;
  - `Images.hpp` declares one `captureTimeStr`, while `ImagesCV.cpp` copies a CPU and a camera capture time. The model keeps both times in `Frames.FrameInfo`.
- The copy in `ImagesCV` copies the `cv::Mat`, which shares its pixel data. The model gives it a fresh buffer with the same pixels. This is only observable through in-place pixel writes, which nothing performs.
- Cameras.Cameras.Init and Cameras.Cameras.Start require an empty ranking, the state of a freshly constructed object. A second initialisation is out of scope.
- Cameras.Cameras.LoadCameraConfig: the field defaults from the header that the file overwrites are stated in `Cameras.DefaultSettings`. Defaults not observable through the model (the balance ratios before `Init`) are left open.
- `useExternalTrigger` and `useChunkFeatures` are declared in no source file of this model. In the model they are parameters of the constructors, fixed for the object's lifetime.
- `DisplayImages`' "save" branch is commented out in the code, so the model's other keys push nothing.
- `StoreImages`' save call is commented out in the code, so the model pops only.

## Findings

| source | as written | input that shows it | evidently intended | confidence | as-written member | corrected member |
|---|---|---|---|---|---|---|
| src/Cameras.cpp:496-509 | on ESC, `DisplayImages` pushes `*imgs` after moving from it into `imgs2` | any pair, key 27: both slots of `*imgs` are null when the push copies it, and the copy dereferences them | push the pair that was popped | not executed | Cameras.DisplayEscapeAsWritten | Cameras.Cameras.DisplayImages |
| src/Core.cpp:108-118 | `main` starts only the grab and the store threads, then joins them; only `DisplayImages` and `DemoLoadImages` raise the exit flag (src/Cameras.cpp:508, 535), and `main` runs neither | a working directory, the parameter file, one camera on a subnet with its two maps, no device call throwing: construction succeeds, and both joins wait forever | run the display thread, and in software trigger mode a trigger thread, so that ESC ends the workers and `main` returns 0 | not executed | Core.Run | Core.RunWithDisplay |
| src/Cameras.cpp:83-85 | the "Not all the cameras have been detected" warning tests `size() > c_maxCamerasToUse`, the test of the throw just above | one camera on the first subnet: no warning, although a camera is missing | warn when `size() < c_maxCamerasToUse` | not executed | Selection.MissingCamerasAsWrittenNeverShown | Selection.MissingCamerasShownIffFewOnSubnet |
