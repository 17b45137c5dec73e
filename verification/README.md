# Cirrus: a verified model

Cirrus trains models with many short-lived workers.  A worker fetches a slice of a model from a
parameter server, computes a sparse gradient on a minibatch, and ships it back.  This project models
that machinery and proves what its design relies on.

- **Matrix factorization** (`Factorization`, `Descent`, `MFModels`, `SparseMFModels`, `MFGradients`,
  `Slices`, `Tracking`, `GradientShift`, `Rounds`, `SharedItems`, `TrainRound`).  `Factorization` says on
  values what one rating does to one user and one item, and `Descent` that this is the descent step of
  the regularized squared error.  The dense and the sparse model are classes over flat
  vectors and maps that refine it.  `TrainRound.Round` runs a whole round, wire formats included, and
  leaves the server with exactly the model that in-place training gives; `Rounds` extends this to any
  interleaving of workers whose rounds in flight share no user and no item, and `SharedItems` says
  what holds when they do share one.
- **Prefetching** (`Prefetch`, `PrefetchOrder`, `PrefetchProgress`, `PrefetchReach`,
  `CircularBuffers`, `QueueRings`, `NetflixCursor`, `SparseDatasets`).  Producer and consumer are
  interleaved steps over two semaphores, a ring and a map of live strings.  The proofs cover order, lifetime, read-ahead and
  liveness under every scheduling, which objects some run delivers, and the row counter that a worker
  keeps beside its iterator.
- **Sparse logistic regression** (`LRGradients`, `LRMeaning`, `SparseLRModels`, `Optimizers`).  The
  gradient with reused scratch vectors and a stale weight cache, against the plain map-based one, and
  what both compute; the server's update rules on streams of gradients.
- **Parameter server** (`Dispatch`, `DispatchSafety`, `DispatchRest`, `DispatchProgress`,
  `TaskRegistries`, `Handlers`).  The request queue with any number of poll and worker threads, from
  mutual exclusion to the handling of every message; the task register; Lambda invocations as its
  clients.
- **Text and aggregation** (`LibsvmText`, `LibsvmParsers`, `Checksums`, `Densify`,
  `MinMaxScaling`, `NormalScaling`).
- `Words`, `Multiples`, `Repeats` and `Sets` are shared: 4-byte words with explicit truncation and
  sign, products as repeated addition, constant sequences, facts about finite sets.

Code that mutates is a class or a method with loops, proved against a function or a predicate whose
own properties are lemmas.  Threads are state machines: every step is one access to shared state.
`FEATURE_TYPE` is an exact real, the sigmoid and the square root are parameters, a serialized buffer
is a sequence of words.

## Where the code and its descriptions differ

- Regularization is 0.05 in `src/SparseMFModel.cpp:21-25` and 0.01 in `src/MFModel.cpp:23-27`; it is a
  parameter, and the round theorem is about equal values.
- `src/MFNetflixTask.cpp:100-118`: a worker's iterator ends one object into the next worker's share
  (`NetflixCursor.NeighboursShareIff`), and the row counter is right under an exact condition only
  (`NetflixCursor.CounterCorrectIff`).
- `src/MFNetflixTask.cpp:100-111`: the shares are laid out from object 0 although the range may start
  later.  Then the end of the range can be left without a worker, and objects in front of it are
  trained on: with objects 10 to 19 and three workers, 0 to 12 (`NetflixCursor.RangeAssignedIff`,
  `NetflixCursor.NothingInFrontIff`, `NetflixCursor.RangeMissed`).
- `src/MFNetflixTask.cpp:104-114` with `src/S3SparseIterator.cpp:190-195`: with many workers a share can
  start behind the range.  Its iterator never meets its right end and fetches every object from there
  on; its counter names the same rows again and again.  With objects 0 to 4 and four workers, the fourth
  trains on 6, 7, 8 and so on (`NetflixCursor.NothingBehindIff`, `NetflixCursor.RangeLeft`).  A share that
  starts right behind the range makes `src/S3SparseIterator.cpp:266` divide by zero, as for worker 16
  of 20 on `train_set: 0-47` (`NetflixCursor.WorkerCrashesIff`, `NetflixCursor.TwentyWorkers`).
- `src/CircularBuffer.h:119-125`: an add into the last free cell empties the buffer.
- `python/frontend/cirrus/cirrus/handler.py:193-198`: an invocation whose refusal is lost
  deregisters the task of the running winner (`Handlers.LostRefusalEndsTheWinner`).
- `python/frontend/cirrus/cirrus/automate.py:655-660`: a worker id is said to lie in `[0, n)` and is
  offset by the experiment.  Task ids fit the 32-bit field up to experiment 428.
- `src/PSSparseServerTask.cpp:861-864`: a connection given to a blocked poll thread is not announced
  through that thread's pipe, so its first message waits for a time-out
  (`DispatchRest.UnpolledMustWait`; `DispatchRest.HandledAtRestIff` says exactly when).
- `src/PSSparseServerTask.cpp:226-236`: the slice is written into a buffer of 1,000,000 bytes without a
  look at its size.  It fits up to 20,833 entities, so always up to 3063 rows
  (`TrainRound.FitsWhateverItRates`).
- `src/SparseDataset.cpp:13` switches the decoder's assertions on.  The decoder for a minibatch asks for
  fewer than a million values and a label within 1e-7 of 0 or 1, the one for a whole object allows a
  million values and exact labels only (`SparseDatasets.Sane`).
- `src/SparseLRModel.cpp:445-458` can return a gradient without an entry, which the receiver's
  assertion rejects (`SparseLRModels.AcceptedIff`).
- `src/SparseLRModel.cpp:236-250` and `445-458` add twice epsilon times the weight to a gradient that the
  server then adds to the weights: the regularization drives weights away from zero
  (`LRMeaning.RegularizationGrows`).
- `src/InputReader.cpp:1034-1041`: `number_users` ends as the largest row number, one less than the
  number of users, and a last line without a newline is dropped.
- `python/frontend/cirrus/cirrus/lambdas/normal_helper.py:4-6`: the returned triple is described as
  means and holds sums.

## Model

| member | source | states |
|---|---|---|
| Words.LoadStore | src/Utils.h:131-144 | Loading inverts storing exactly on the values that the loaded type represents, for the signed and for the unsigned load |
| Words.LoadStoreLong | src/Utils.h:131-144 | A 64-bit value survives storing and loading exactly if it is below 2^64 |
| Factorization.RunIsLocal | src/SparseMFModel.cpp:186-240 | Training two models that agree on the users and items of the ratings keeps them in agreement there, for any stream |
| Factorization.RunFrames | src/MFModel.cpp:269-343 | Training leaves every user and item that no rating names unchanged, and keeps the domains and shapes |
| Factorization.RunConcat | src/MFModel.cpp:269-343 | Training on two streams in turn is training on their concatenation |
| Descent.PredictSymmetric | src/MFModel.cpp:221-240 | Users and items play the same part in a prediction |
| Descent.PredictAddsBiases | src/MFModel.cpp:221-240 | A prediction is linear in each bias |
| Descent.PredictMultipliesFactors | src/MFModel.cpp:221-240 | A prediction is linear in each factor, in proportion to the partner's |
| Descent.PredictUnknown | src/MFModel.cpp:221-240 | Where nothing is known the prediction is 3.604 |
| Descent.BiasesDescend | src/MFModel.cpp:303-304 | Both biases take the descent step of the squared error plus regularization, told from the loss by its symmetric differences |
| Descent.UserFactorsDescend | src/MFModel.cpp:311-335 | So does each factor of the user |
| Descent.ItemFactorsDescend | src/MFModel.cpp:311-335 | So does each factor of the item, at the user as just moved and for the error measured before |
| MFModels.TableUpdate | src/MFModel.cpp:250-267 | Writing one entity through the flat index changes that entity of the table and no other |
| MFModels.MFModel.PredictRating | src/MFModel.cpp:221-240 | The flat-vector prediction is the prediction of the factorization model on the two entities |
| MFModels.MFModel.TrainOne | src/MFModel.cpp:277-335 | One in-place rating update on the flat vectors is one training step on the model they stand for |
| MFModels.MFModel.SgdUpdateRows | src/MFModel.cpp:269-343 | The in-place loop trains on every rating in order; it stops exactly at the first rating that names an unknown user or item, with everything before it applied |
| MFModels.MFModel.SerializeSlice | src/SparseMFModel.cpp:322-353 | The slice written is that of the requested users and items, and it fails exactly when an id is not in the model |
| MFModels.MFModel.SgdUpdate | src/MFModel.cpp:193-219 | Applying a gradient shifts every bias and factor by the sum of its entries for that id, and nothing else; a block of an unknown id throws, with exactly the blocks in front of it applied |
| MFModels.MFModel.SerializeTo | src/MFModel.cpp:85-121 | The bytes written equal the announced size and are the image of sizes, biases and weights |
| MFModels.MFModel.LoadSerialized | src/MFModel.cpp:123-167 | Loading what was written for any model restores its sizes, biases and weights, whatever the object held |
| MFGradients.Serialize | src/ModelGradient.cpp:329-372 | Exactly the announced number of bytes, in an order of the map entries that the result exhibits |
| MFGradients.LoadSerialized | src/ModelGradient.cpp:374-416 | Loading a serialized gradient, for any order the maps were written in, gives the gradient back |
| MFGradients.ImageSize | src/ModelGradient.cpp:329-335 | Any image of a sendable gradient has the announced size |
| GradientShift.ShiftByDelta | src/MFModel.cpp:193-219 | Adding a block that is the difference of two entities turns the first into the second, whatever other blocks the gradient holds |
| SparseMFModels.SparseMFModel.LoadSerialized | src/SparseMFModel.cpp:96-143 | Loading a slice the server wrote gives each user and item of the slice the server's bias and factors |
| SparseMFModels.SparseMFModel.PredictRating | src/SparseMFModel.cpp:145-164 | The slice predicts what the model it was cut from predicts |
| SparseMFModels.SparseMFModel.GradRating | src/SparseMFModel.cpp:186-240 | After each rating the accumulated partial gradient is exactly the difference training has made so far |
| SparseMFModels.SparseMFModel.MinibatchGrad | src/SparseMFModel.cpp:166-285 | The worker trains its private copy in place and returns a gradient that is exactly the difference made to each user of the minibatch and each rated item, and that meets the size assertions of serialization |
| Rounds.RoundRefinesTraining | src/SparseMFModel.cpp:166-285 | If the snapshot agrees with the server's model on the ids of the round, adding the gradient at the server is training the server's model in place |
| Rounds.RoundsAreSerializable | src/PSSparseServerTask.cpp:121-160 | For every interleaving of requests, unlocked reads of single entities and locked updates of rounds with disjoint ids, the server's model is sequential training in the order of the updates |
| Rounds.NothingTorn | src/PSSparseServerTask.cpp:233-241 | A slice that is read without the model lock never reads an entity that an update is writing |
| Rounds.RoundCompletes | src/PSSparseServerTask.cpp:121-160 | Whenever the lock is free, a round on unused users and items can be run to its end, and the server has then trained on its ratings |
| SharedItems.ArrivalOrderIsIrrelevant | src/MFModel.cpp:193-219 | Whatever rounds they come from and whatever they share, gradients leave the same model in every order of arrival |
| SharedItems.SharedItemIff | src/PSSparseServerTask.cpp:121-160 | Of two one-rating rounds on one item and one snapshot, adding both gradients is training on one and then on the other exactly if the first leaves the item as it is |
| SharedItems.NoSequentialTraining | src/PSSparseServerTask.cpp:121-160 | Two users who rate a new item with 4 at the same time: the sum is neither order of training |
| TrainRound.CollectItems | src/PSSparseServerInterface.cpp:209-221 | The item list of the request has every rated item exactly once |
| TrainRound.BuildRequest | src/PSSparseServerInterface.cpp:200-233 | The request carries the count, first user, minibatch size, magic number and deduplicated items |
| TrainRound.RequestIs | src/PSSparseServerInterface.cpp:200-233 | The words of the request, with 0x1337 as the fourth |
| TrainRound.AnswerRequest | src/PSSparseServerTask.cpp:203-252 | The server answers a request with the requested slice exactly when it is non-empty, all ids exist and the slice fits the reply buffer; the announced size is the number of bytes sent |
| TrainRound.FitsWhateverItRates | src/PSSparseServerTask.cpp:226-230 | The reply buffer of 1,000,000 bytes holds the slice of a minibatch of n rows, whatever items they rate, exactly for n up to 3063 |
| Slices.SliceSize | src/PSSparseServerTask.cpp:226-230 | The bytes of a slice are its ids times the size of an id, a bias and ten factors |
| TrainRound.WorkerSide | src/MFNetflixTask.cpp:140-158 | What arrives at the server from the worker is the difference that training made to a slice that agrees with the server |
| TrainRound.Round | src/PSSparseServerTask.cpp:121-160 | A round over the wire succeeds exactly when it rates an item, names only known ids and fits the reply buffer; then the server holds the in-place trained model, otherwise nothing changes |
| TrainRound.RoundLeavesOthers | src/MFModel.cpp:193-219 | A round changes no user outside the minibatch and no item it does not rate |
| CircularBuffers.CircularBuffer.SizeIsLength | src/CircularBuffer.h:52-58 | The size computed from the two cursors is the length of the contents and below the capacity |
| CircularBuffers.CircularBuffer.Add | src/CircularBuffer.h:119-125 | Appends below capacity - 1; at capacity - 1 the buffer becomes empty |
| CircularBuffers.CircularBuffer.Pop | src/CircularBuffer.h:61-69 | Throws exactly on the empty buffer, otherwise removes and returns the first element |
| CircularBuffers.CircularBuffer.Front | src/CircularBuffer.h:72-78 | Throws exactly on the empty buffer, otherwise gives the first element |
| QueueRings.QueueRing.TakeNext | src/S3SparseIterator.cpp:82-88 | Through the circular buffer: empty queues at the front go, and the first item of the next one is taken; it throws exactly if no queue holds anything |
| QueueRings.QueueRing.AddQueue | src/S3SparseIterator.cpp:169-171 | Through the circular buffer: a queue is appended, or, in the last free cell, the list reads as empty |
| QueueRings.Mirror | src/S3SparseIterator.cpp:61-177 | In every run of the two threads the circular buffer holds exactly the queues of the ring, and gives out exactly the items of the run |
| PrefetchOrder.RunsAreSafe | src/S3SparseIterator.cpp:61-177 | Counting, order, lifetime and fault freedom hold in every state of every interleaving |
| PrefetchOrder.ConsumerNeverFaults | src/S3SparseIterator.cpp:78-110 | A consumer holding a token never finds the ring empty nor decodes from an erased string |
| PrefetchOrder.DeliveryOrder | src/S3SparseIterator.cpp:61-201 | The k-th minibatch is number k mod n of the (k / n)-th object fetched; a sequential iterator fetches its range in a cycle, and from behind its range every object ahead |
| PrefetchOrder.PointersLive | src/S3SparseIterator.cpp:61-74 | Every queued or undecoded minibatch points into a string that is present and is its own object |
| PrefetchProgress.ReadAheadBounded | src/S3SparseIterator.cpp:95-100 | Permits stay within the read-ahead, waiting minibatches within 199 + (readAhead + 2) n, ring queues within readAhead + 202 |
| PrefetchProgress.NeverDeadlocked | src/S3SparseIterator.cpp:225-262 | With a minibatch per object the two threads are never both blocked |
| PrefetchProgress.NextMinibatchArrives | src/S3SparseIterator.cpp:61-177 | Under every scheduling the next minibatch is delivered within a fixed number of steps |
| PrefetchProgress.DeadlockIff | src/S3SparseIterator.cpp:134-177 | Some interleaving deadlocks exactly when an object holds no whole minibatch |
| PrefetchReach.DeliversIff | src/S3SparseIterator.cpp:225-278 | A sequential iterator delivers something in some run exactly if objects hold a minibatch and its two ends differ |
| PrefetchReach.CrashesIff | src/S3SparseIterator.cpp:266 | Some run of a sequential iterator divides by zero exactly if its two ends are equal |
| PrefetchReach.ObjectArrives | src/S3SparseIterator.cpp:61-201 | Every object in the sequence is delivered in some run |
| PrefetchReach.PermitIsReturned | src/S3SparseIterator.cpp:93-100 | The consumer goes for a permit exactly if at most 199 minibatches are ready |
| PrefetchReach.PermitIsMissing | src/S3SparseIterator.cpp:93-100 | And gives one back exactly if fewer than the read-ahead are free |
| PrefetchReach.AnyObjectCanBeDrawn | src/S3SparseIterator.cpp:181-189 | Whenever a random iterator can fetch, it can fetch any object of its range |
| NetflixCursor.Iterate | src/MFNetflixTask.cpp:120-166 | The loop asks for exactly the rows of the counter function |
| NetflixCursor.CounterCorrectIff | src/MFNetflixTask.cpp:93-166 | The counter names the first row of every delivered minibatch in every interleaving, exactly when nothing is ever delivered, or it starts at the iterator's first object, inside the range, and minibatches fill objects or there is one object |
| NetflixCursor.CounterSlips | src/MFNetflixTask.cpp:161-166 | With rows left over, the counter is wrong at the first minibatch of the second object |
| NetflixCursor.WorkerKnowsItsRows | src/MFNetflixTask.cpp:93-166 | In every interleaving of the prefetcher, each delivered minibatch starts at the counter's row |
| NetflixCursor.CounterStuck | src/MFNetflixTask.cpp:161-166 | A worker that starts behind the range resets its counter at once, and is wrong at its second minibatch |
| NetflixCursor.TrainsIff | src/MFNetflixTask.cpp:100-118 | The objects of which a worker's iterator delivers a minibatch in some run: its share; or all objects ahead if it starts behind the range; or none if it starts right behind it |
| NetflixCursor.AssignedIff | src/MFNetflixTask.cpp:100-118 | The objects some worker trains on: from 0 to the end of the range or to as far as the shares reach, wherever the range starts, and all objects from the start of the first share that is more than one object behind the range |
| NetflixCursor.RangeAssignedIff | src/MFNetflixTask.cpp:100-111 | Every object of first..last has a worker exactly if workers * ((last - first) / workers + 1) is at least last |
| NetflixCursor.NothingInFrontIff | src/MFNetflixTask.cpp:100-111 | No object in front of the range is trained on exactly if the range starts at 0 |
| NetflixCursor.NothingBehindIff | src/MFNetflixTask.cpp:100-118 | No object behind the range is trained on exactly if (workers - 1) * ((last - first) / workers + 1) is at most last + 1 |
| NetflixCursor.WorkerCrashesIff | src/S3SparseIterator.cpp:266 | Worker w's iterator can divide by zero exactly if w * ((last - first) / workers + 1) is last + 1 |
| NetflixCursor.WholeRangeAssigned | src/MFNetflixTask.cpp:100-111 | With a range from 0, every object lies in some worker's share |
| NetflixCursor.RangeMissed | src/MFNetflixTask.cpp:100-111 | Three workers on objects 10 to 19 train on exactly 0 to 12 |
| NetflixCursor.RangeLeft | src/MFNetflixTask.cpp:100-118 | Four workers on objects 0 to 4 train on every object but 5 |
| NetflixCursor.TwentyWorkers | configs/netflix.cfg:19 | Twenty workers on objects 0 to 47: worker 16 divides by zero, and others train on all objects from 51 on |
| NetflixCursor.NeighboursShareIff | src/MFNetflixTask.cpp:100-118 | Two neighbours both train on an object exactly if it is the second one's first, inside the range, or both start more than one object behind the range and it lies ahead of the second |
| SparseDatasets.Build | src/SparseDataset.cpp:203-248 | The encoder writes exactly the size it computed beforehand, and the slice's image |
| SparseDatasets.DecodeMinibatch | src/SparseDataset.cpp:33-66 | Decoding at a sample's start gives the next samples and labels and stops behind them, exactly when labels and lengths pass the assertions |
| SparseDatasets.DecodeObject | src/SparseDataset.cpp:68-109 | Decoding a whole object gives the slice, exactly when the counts and labels pass the checks |
| SparseDatasets.SaneIff | src/SparseDataset.cpp:47-53 | The decoders' assertions in numbers |
| SparseDatasets.WalkableIff | src/S3SparseIterator.cpp:152-159 | The walk's assertions in numbers |
| SparseDatasets.Walk | src/S3SparseIterator.cpp:134-168 | One pointer per minibatch, each at the start of that minibatch's samples; it stops exactly when a label or length is out of range |
| SparseDatasets.RoundTrip | src/S3SparseIterator.cpp:115-168 | Encoding a slice, walking it and decoding minibatch i gives samples i * rows up to (i + 1) * rows; the walk ends at the end of the object exactly if rows divides their number |
| SparseDatasets.NothingLeftIff | src/S3SparseIterator.cpp:134-168 | A pointer at a sample is at the end of the object exactly if no sample is left |
| LRGradients.Serialize | src/ModelGradient.cpp:142-157 | The bytes written equal the announced size and are the gradient's image |
| LRGradients.LoadSerialized | src/ModelGradient.cpp:113-140 | A gradient survives the trip exactly if it has at least one weight and fewer than ten million |
| SparseLRModels.SparseLRModel.MinibatchGradSparse | src/SparseLRModel.cpp:393-460 | The scratch-vector gradient: no index twice, exact values, exactly the indices with a non-zero data term that pass the threshold; and all-zero scratch afterwards |
| SparseLRModels.SparseLRModel.MinibatchGrad | src/SparseLRModel.cpp:195-271 | The map-based gradient has one exact entry per named index in whatever order; it throws exactly on a sparse model or an index out of range |
| SparseLRModels.SparseIsFilteredFull | src/SparseLRModel.cpp:411-460 | The sparse result is the full result restricted to non-zero data terms that pass the threshold, value for value |
| LRMeaning.DotRaise | src/SparseLRModel.cpp:212-223 | Raising one weight raises a row's dot product by the row's sum at its index |
| LRMeaning.DotOfUnit | src/SparseLRModel.cpp:212-223 | The dot product with a unit vector is the row's sum at its index |
| LRMeaning.GradientIs | src/SparseLRModel.cpp:411-458 | The gradient at an index is the samples' sums there times how far their labels are above their predictions, plus twice epsilon times the weight |
| LRMeaning.LabelRaises | src/SparseLRModel.cpp:424-439 | Raising one label raises the data term at every index by as much times what its sample holds there |
| LRMeaning.PerfectFit | src/SparseLRModel.cpp:424-439 | The data term is zero where every prediction is its label |
| LRMeaning.RegularizationGrows | src/SparseLRModel.cpp:445-458 | There the gradient has the sign of the weight |
| LRMeaning.PassesIff | src/SparseLRModel.cpp:453-457 | The size of an entry decides whether it passes the threshold, and an entry as large is dropped |
| SparseLRModels.TermsLocal | src/SparseLRModel.cpp:419-444 | Weights the dataset does not name have no part in any contribution |
| SparseLRModels.SparseLocal | src/SparseLRModel.cpp:445-458 | A sparse gradient at one weight vector is the sparse gradient at any other that agrees on the named indices |
| SparseLRModels.IndicesAre | src/PSSparseServerInterface.cpp:88-98 | The request names exactly the indices of the features |
| SparseLRModels.RequestFits | src/PSSparseServerInterface.cpp:77-98 | A request fits its buffer of 1 MB up to exactly 262,143 indices |
| SparseLRModels.SparseLRModel.Fetch | src/PSSparseServerInterface.cpp:77-135 | A fetch refreshes exactly the named cells of the cache with the server's weights, and fails exactly on a dataset without features |
| SparseLRModels.AnswerRequest | src/PSSparseServerTask.cpp:254-305 | The reply holds the weights in request order and never outgrows its buffer when the request fitted its own |
| SparseLRModels.SparseLRModel.Step | src/LogisticSparseTaskS3.cpp:113-135 | The gradient shipped is the gradient at the server's weights, whatever cache and scratch held |
| SparseLRModels.SparseLRModel.Session | src/LogisticSparseTaskS3.cpp:96-135 | Over every sequence of rounds on one reused model, every gradient is right, up to the first minibatch without features; the server accepts exactly those in which some data term is not zero and passes the threshold |
| SparseLRModels.AcceptedIff | src/ModelGradient.cpp:113-118 | A sparse gradient has an acceptable number of entries exactly if some index has a non-zero data term and a gradient behind the threshold |
| Optimizers.OrderIsIrrelevant | src/PSSparseServerTask.cpp:189-196 | Sums per index are the same for any permutation of the entries |
| Optimizers.LRWeights.SgdStream | src/SGD.cpp:9-24 | After a stream of messages every weight moved by the scaled sum of its entries, for any order of the same entries |
| Optimizers.LRWeights.AdaGradStream | src/AdaGrad.cpp:8-28 | After a stream the history grew by the squares in any order; each weight moved by the sum, over the entries that name it in order, of the rate times the value over epsilon plus the root of the history so far: less than n learning rates for n > 0 entries, and not at all for none |
| Optimizers.AdaMove | src/AdaGrad.cpp:22-26 | One move times epsilon plus the root of the history is the rate times the value, and it is strictly shorter than the rate |
| Optimizers.MoveIsAlong | src/AdaGrad.cpp:22-26 | A move has the sign of its value |
| DispatchSafety.StepSafe | src/PSSparseServerTask.cpp:617-704 | Every step of every thread and client keeps the dispatch invariant |
| DispatchSafety.OneHolder | src/PSSparseServerTask.cpp:617-704 | A connection that a worker has is not with another worker, not queued and not armed |
| DispatchSafety.NoFault | src/PSSparseServerTask.cpp:636-642 | A woken worker finds a request |
| DispatchSafety.EveryRunIsSound | src/PSSparseServerTask.cpp:617-704 | In every run: requests for the woken, data for the readers, one server per connection, messages handled once and in the order sent |
| DispatchRest.NothingStranded | src/PSSparseServerTask.cpp:802-885 | No wake-up is lost: at rest every message of every open connection polled at least once has been handled |
| DispatchRest.HandledAtRestIff | src/PSSparseServerTask.cpp:802-885 | In every run that is at rest, all messages of an open connection have been handled exactly if its thread has polled since it got it, or none was sent |
| DispatchRest.UnpolledMustWait | src/PSSparseServerTask.cpp:861-866 | A reachable state at rest in which a new connection's message waits for a time-out |
| DispatchRest.ScanLeavesNone | src/PSSparseServerTask.cpp:825-886 | When a scan comes to its end, every connection that its poll flagged has been pushed |
| DispatchProgress.StepLess | src/PSSparseServerTask.cpp:617-704 | Every step the server takes by itself, other than a time-out, decreases a measure |
| DispatchProgress.DoneIff | src/PSSparseServerTask.cpp:802-885 | The server has no such step left exactly when it is at rest |
| DispatchProgress.MessagesAreHandled | src/PSSparseServerTask.cpp:617-704 | From every reachable state and under every schedule, the server's own steps end within a bound, and then every message sent on a polled connection is handled and every such connection that was hung up is closed |
| DispatchProgress.AlwaysComesToRest | src/PSSparseServerTask.cpp:802-885 | From every reachable state some schedule leads to rest |
| DispatchProgress.SentIsHandled | src/PSSparseServerTask.cpp:617-704 | A client can send on any open polled connection, and its message is handled after the ones before it |
| DispatchProgress.HungUpIsClosed | src/PSSparseServerTask.cpp:636-650 | A client can hang up, and its connection is then closed with all messages handled |
| DispatchProgress.OneTimeoutPolls | src/PSSparseServerTask.cpp:802-885 | A connection that has not been polled waits for no more than one time-out of its thread |
| TaskRegistries.TaskRegistry.Admit | src/PSSparseServerTask.cpp:447-465 | Registration answers 0 exactly for a never-seen id, makes it live with its times, and changes no other task |
| TaskRegistries.TaskRegistry.ProcessRegister | src/PSSparseServerTask.cpp:435-475 | As the locked part, and the counter moves exactly when the reply was sent |
| TaskRegistries.TaskRegistry.DeclareTaskDead | src/PSSparseServerTask.cpp:559-575 | Ends a live task and says so, leaves a dead one and says so |
| TaskRegistries.TaskRegistry.ProcessDeregister | src/PSSparseServerTask.cpp:577-615 | The answers 0, 1 and 2 tell live, dead and never-seen apart; only a live task changes |
| TaskRegistries.TaskRegistry.CheckTasksLifetime | src/PSSparseServerTask.cpp:902-920 | A sweep ends exactly the overdue tasks |
| TaskRegistries.OverdueIff | src/PSSparseServerTask.cpp:902-920 | Overdue means four seconds or more behind the remaining time |
| TaskRegistries.TaskRegistry.WhatNumTasksCounts | src/PSSparseServerTask.cpp:467-475 | num_tasks is live plus refused modulo 2^32 exactly when as many replies were counted as registrations answered |
| TaskRegistries.TaskRegistry.ServeAll | src/PSSparseServerTask.cpp:435-615 | Over every run with atomic handlers: a history of phases, the answers it dictates, and num_tasks equal to live plus refused |
| TaskRegistries.PhasesOnlyAdvance | src/PSSparseServerTask.cpp:435-615 | A task only moves from never seen to live to dead |
| TaskRegistries.AnswersZeroOnce | src/PSSparseServerTask.cpp:450-465 | No id is accepted twice, and none is deregistered twice |
| Handlers.AtMostOneLaunch | python/frontend/cirrus/cirrus/handler.py:131-198 | Under any duplication and loss, one id is launched at most once, and an invocation that received its refusal never deregisters |
| Handlers.EndsAnothersTaskIff | python/frontend/cirrus/cirrus/handler.py:193-198 | A deregistration ends another invocation's live task exactly when its own register call raised and it had not won |
| Handlers.WinnerStaysLive | python/frontend/cirrus/cirrus/handler.py:131-198 | Without raised register calls and without sweeps, a running worker's task is live |
| Handlers.LostRefusalEndsTheWinner | python/frontend/cirrus/cirrus/handler.py:193-198 | A run in which a lost refusal ends the running winner's task |
| Handlers.OneInvocationRuns | python/frontend/cirrus/cirrus/handler.py:131-198 | The regular course: registered, launched, finished, deregistered, with the task live in between and dead afterwards |
| Handlers.MaintainOne | python/frontend/cirrus/cirrus/automate.py:651-675 | One id per generation in order; the assertion fails exactly beyond ten thousand generations |
| Handlers.TaskIdsDistinct | python/frontend/cirrus/cirrus/automate.py:661-684 | Task ids are injective in experiment, worker and generation |
| Handlers.TaskIdsAre | python/frontend/cirrus/cirrus/automate.py:661-684 | The last seven digits of a task id are the worker and the generation |
| Handlers.TaskIdsFitIff | python/frontend/cirrus/cirrus/automate.py:661-684 | All ids of an experiment fit 32 bits exactly up to experiment 428 |
| LibsvmText.Print | src/CriteoCsvToLibSVM.cpp:73-82 | The printing loop writes the lines of the samples |
| LibsvmText.ScanDecimal | src/S3IteratorLibsvm.cpp:131-152 | Scanning a printed value gives the value back |
| LibsvmText.ScanDigits | src/S3IteratorLibsvm.cpp:131-152 | Scanning a printed number gives the number back |
| LibsvmText.FractionIs | src/S3IteratorLibsvm.cpp:131-152 | Digits behind a point are worth the number they spell, as many decimal places down as there are digits |
| LibsvmText.FractionIsSmall | src/S3IteratorLibsvm.cpp:131-152 | They are worth at least 0 and less than 1 |
| LibsvmText.ValueIs | src/S3IteratorLibsvm.cpp:131-152 | A value is the number its digits spell without the point, as many places down as stand behind the point |
| LibsvmText.LineOfOne | src/CriteoCsvToLibSVM.cpp:73-82 | The text of one sample, literally |
| LibsvmText.ValueOfOne | src/S3IteratorLibsvm.cpp:131-152 | The text 12.05 is read as 12.05 |
| LibsvmParsers.ReadNum | src/S3IteratorLibsvm.cpp:111-156 | The maximal run of number characters, as the C library sees it through the temporary terminator; the text is restored |
| LibsvmParsers.ReadFeature | src/S3IteratorLibsvm.cpp:215-253 | One turn of the pair loop on a line cut anywhere: the pair, the end of the line, or what the cut makes of it |
| LibsvmParsers.ReadFeatures | src/S3IteratorLibsvm.cpp:215-254 | The pairs of a complete line; otherwise a throw exactly if the text ends with a colon |
| LibsvmParsers.BuildDataset | src/S3IteratorLibsvm.cpp:177-268 | A minibatch of exactly the next rows samples if that many lines are complete, otherwise none |
| LibsvmParsers.ParseObj | src/S3IteratorLibsvm.cpp:270-320 | On any chunk cut out of printed text: the complete lines in full minibatches, text unchanged, no read past the terminator; a throw exactly on an empty rest or a cut behind a colon |
| Checksums.TableIsDivision | src/Checksum.cpp:3-47 | Every one of the 256 entries is the remainder of eight bit divisions by 0xEDB88320 |
| Checksums.Crc32 | src/Checksum.cpp:49-61 | The table loop computes bit-at-a-time division of the message (section 8 of RFC 1952) |
| Checksums.BitsAtOnce | src/Checksum.cpp:49-61 | Feeding a byte bit by bit is one exclusive-or followed by the divisions |
| Checksums.BurstsAreDetected | src/Checksum.cpp:49-61 | Messages that differ only within four consecutive bytes have different checksums, whatever surrounds them |
| Checksums.FiveBytesCollide | src/Checksum.cpp:49-61 | Five bytes are too many: a pair that no context tells apart |
| Checksums.CheckValue | src/Checksum.cpp:49-61 | The nine digits have the checksum 0xCBF43926 |
| Checksums.LeadingZeroIsSeen | src/Checksum.cpp:49-61 | A zero byte in front always changes the checksum |
| Densify.InsertHolds | src/InputReader.cpp:1021-1032 | Placing a line keeps ids and rows inverse to each other and each row the lines of its owner in order |
| Densify.EntryCount | src/InputReader.cpp:1032 | A pair stands in a user's row as often as the lines hold it |
| Densify.EveryInterleavingDensifies | src/InputReader.cpp:985-1043 | For every interleaving: a bijection from seen users to rows, each row the multiset of its user's readable lines, totals as the code computes them |
| Densify.NeverOutOfRows | src/InputReader.cpp:1032 | No interleaving runs out of rows if there is a row for every user |
| Densify.OutOfRowsIff | src/InputReader.cpp:1032 | Every interleaving that comes to its end throws exactly when the lines name more users than there are rows |
| Densify.EveryScheduleEnds | src/InputReader.cpp:985-1043 | Every schedule ends within a bound, with a throw or with all threads done, and where it has not some thread can go on |
| Densify.LastLineDropped | src/InputReader.cpp:995-1005 | All lines are read exactly if the last one ends with a newline |
| MinMaxScaling.GetDataBounds | python/frontend/cirrus/cirrus/lambdas/min_max_helper.py:75-97 | The maps hold exactly the columns that occur, each with a value that occurs and bounds all others |
| MinMaxScaling.BoundStore.RunScript | python/frontend/cirrus/cirrus/lambdas/min_max_helper.py:10-24 | After a script every key holds the extreme of all values ever pushed to it |
| MinMaxScaling.BoundStore.Serve | python/frontend/cirrus/cirrus/lambdas/min_max_helper.py:10-24 | Served in turn, a list of scripts is appended to what was run, and the store stays the extreme of it |
| MinMaxScaling.PushAll | python/frontend/cirrus/cirrus/lambdas/min_max_helper.py:112-148 | One by one, at once or by slot: the same set of values is pushed |
| MinMaxScaling.Work | python/frontend/cirrus/cirrus/lambdas/min_max_helper.py:27-50 | A worker's scripts push exactly the bounds of its chunk, upper and lower |
| MinMaxScaling.PushedDecides | python/frontend/cirrus/cirrus/lambdas/min_max_helper.py:10-24 | The set of pushed values alone decides the database: order, repetition and batching do not matter |
| MinMaxScaling.InterleavingDecides | python/frontend/cirrus/cirrus/lambdas/min_max_helper.py:10-50 | Any merge of the scripts of workers that cover the chunks, some perhaps more than once, leaves the exact bounds of the whole dataset |
| MinMaxScaling.ContributeAll | python/frontend/cirrus/cirrus/lambdas/min_max_helper.py:10-50 | A store that serves such a merge from empty holds the exact bounds of the whole dataset, whatever the order, interleaving and repetition |
| MinMaxScaling.ScaledInRange | python/frontend/cirrus/cirrus/lambdas/min_max_helper.py:194-208 | A value between its bounds lands in the new range |
| MinMaxScaling.ScaledEnds | python/frontend/cirrus/cirrus/lambdas/min_max_helper.py:194-208 | Unless they nearly coincide, the bounds land on the ends of the new range |
| MinMaxScaling.ScaledIsAffine | python/frontend/cirrus/cirrus/lambdas/min_max_helper.py:194-208 | Bounds more than 0.0001 apart are mapped to the new range by the affine map |
| MinMaxScaling.ScaledIsMiddle | python/frontend/cirrus/cirrus/lambdas/min_max_helper.py:194-208 | Otherwise every value becomes the middle of the new range |
| MinMaxScaling.ScaleData | python/frontend/cirrus/cirrus/lambdas/min_max_helper.py:194-208 | Every value of a bounded chunk is scaled into the new range, columns kept |
| MinMaxScaling.ScaleChunks | python/frontend/cirrus/cirrus/lambdas/min_max_helper.py:194-208 | Every chunk can be scaled with the bounds of the whole dataset, every value into the new range |
| MinMaxScaling.EndsAreTaken | python/frontend/cirrus/cirrus/lambdas/min_max_helper.py:194-208 | A column whose bounds are apart has a value at either end of the new range |
| NormalScaling.GetDataRanges | python/frontend/cirrus/cirrus/lambdas/normal_helper.py:4-22 | The sums of exactly the columns that occur |
| NormalScaling.GetGlobalMap | python/frontend/cirrus/cirrus/normal_scaler.py:84-102 | For every chunking the added sums are those of the whole dataset |
| NormalScaling.VarianceNonNegative | python/frontend/cirrus/cirrus/normal_scaler.py:105-130 | E[X^2] - E[X]^2 is never negative |
| NormalScaling.ScaledIsStandard | python/frontend/cirrus/cirrus/lambdas/normal_helper.py:25-36 | A column whose variance exceeds the tolerance has mean 0 and variance 1 after scaling |
| NormalScaling.ScaledIsFlat | python/frontend/cirrus/cirrus/normal_scaler.py:116-119 | Any other column becomes zero |
| NormalScaling.ScalingKeepsOrder | python/frontend/cirrus/cirrus/lambdas/normal_helper.py:25-36 | With a root that is not negative, scaling keeps the order of a column |
| NormalScaling.ScaleAll | python/frontend/cirrus/cirrus/normal_scaler.py:84-130 | Whatever the chunking, every output column is the input column standardized with the mean and deviation of the whole dataset |

## Left out

- Sockets, `poll`, pipes, object storage and Redis transport: only their step-level effect is modelled; retries of a failed fetch in the prefetcher are not.
- Floating-point rounding, NaN checks and random initialization: values are exact reals and initial weights are parameters.
- Eigen-based models, `Matrix::T`, `Dataset::build_s3_obj`, loss computations, grid search, cost model, user interface: they compute through a linear-algebra library, are unfinished, or hold no state to speak of.
- The purge of closed descriptors (`src/PSSparseServerTask.cpp:888-894`), the kill operation and hang-ups of a connection that is being served: runs stay below the descriptor limit, and every message has a known operation.
- TrainRound.AnswerRequest: stops where the source would write behind the reply buffer, since what happens then is undefined.
- The unlocked read of `list_strings` by the prefetching thread and the unlocked `num_tasks++`: each access is one atomic step.
- `str_version` and `num_minibatches_ready` are unbounded integers.
- Rounds.RoundsAreSerializable: is about rounds in flight with disjoint ids; `SharedItems` has the exact condition for two rounds that share an item, and the input on which they are no sequential training.
- SharedItems.SharedItemIff: expects regularizations other than zero, which the constructors set.
- The configuration of a `SparseLRModel` is fixed for the object's lifetime; the weight cache is a full vector of 2^model_bits cells, which the source reserves and does not resize.
- Printed libsvm values with an exponent or a sign, and labels or indices beyond `int`: the parser throws on the first two and overflows on the last.
- `getFileRange` and the range requests of the object-store client: I/O.
- Momentum and Nesterov updates: they fold the entries of all weights into one running average, of which neither the code nor its documentation promises anything.
- MurmurHash3 and feature hashing: no modelled code depends on them.
- SparseMFModels.SparseMFModel.MinibatchGrad: expects the minibatch to fit the loaded slice (every row a loaded user, every item a loaded item), because the source indexes its vectors and maps without a check there; `TrainRound.Round` establishes it.
- LibsvmParsers.ParseObj: expects at least one row per minibatch, because with none the source never returns.
- MFModels.MFModel.SgdUpdate: expects biases of the model's own ids, because the source indexes the bias vectors without a check.
- SparseLRModels.SparseLRModel.Step: is about the weights the server read for its answer; while other threads add gradients these may stem from different moments. `edit_weight`, which changes nothing under SGD and AdaGrad, is not part of the answer.
- SparseLRModels.SparseLRModel.Fetch: expects a request that fits the fixed message buffer, which the source fills without a check.
- SparseLRModels.SparseLRModel.MinibatchGradSparse: expects indices below 2^model_bits and at most a configured minibatch of samples, because the source indexes the cache and the scratch vectors without a check.
- Optimizers.AdaMove: takes the square root as a function with its defining property, and says nothing about how it is computed.
