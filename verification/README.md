# Feed caches, subscriptions, registration and dialogs of the social network: a Dafny model

A Dafny model of the back end's four stateful protocols, with proofs over every run.
`dafny verify dfyconfig.toml` checks the whole project.

## What is modelled

**The feed cache.** Writes to friends and posts send notifications; workers consume them and
rewrite two Redis caches, the subscribers of each author and the feed of each user; HTTP
readers fill the feed cache too. `SocialDb` holds the tables, the SQL statements and the
queries as functions, with a frame theory for the join/sort/limit query, and `FeedChanges` says
exactly which writes change which feed. `Storage`,
`RedisCaching` and `FeedUpdater` are the storages, services, cache and worker as classes that
change their state in place, with the failures they meet; `FanOut` is about the worker under
every pattern of failures. `Protocol` is the concurrent system as a step model in which a Load
is four steps, and in which notifications are lost, accesses fail, queries are cut short and
locks expire or are flushed at any moment. Its `Damage` is an account of what such faults may
have spoilt and nothing has made good since; `Accounting` shows that no run depends on it. `Obligations` states the invariant,
`GoroutineSteps` what one step of a goroutine can do, and `Coherence`, `Draining`,
`Publishing` and `Losses` prove what holds of all runs. `Schedules` ties the step model to
the worker class and shows how damage is repaired; `KeyVersions` proves what the per-key lock
alone gives.

**The WebSocket subscription registry.** `Subscriptions` is the registry as a value with its
invariant, `Subscriber` the service as a class and the handler's loop, `Handlers` the whole
system of handlers over the registry, with cleanups that run arbitrarily late, and `Strays` is
about consumers that run unregistered.

**The registration saga.** `Saga` is the system of two queues with every loss that can occur,
`SagaServices` the services as classes.

**Dialogs.** `DialogIds` is the dialog identifier, with the hash as a parameter; `Dialogs` the
message table, its storage and service, and the history theorem.

`Ordering`, `Cursors`, `Users` and `Wrappers` hold what the others share.

## Assumptions

- Notifications are a multiset: nothing is assumed about the order of delivery, and they may
  be delivered more than once. A notification is counted from the commit of its write until a
  worker takes it or it is lost.
- Reads see the current database.
- Rows with equal times are listed by identifier; SQL leaves their order open. Identifiers
  are generated once.
- The registry's cleanups may run at any time after their consumer was started, which covers
  every way in which its queue can end.
- Dialog histories assume that the hash has no collision on the strings used, and user ids
  of one length; both hypotheses are explicit.

## Where the code does not keep a promise

Each with an input for which it fails and the exact condition under which it holds.

- Several workers may publish feeds in the wrong order (`Publishing.WorkersPublishOutOfOrder`);
  the last published feed is always the current one exactly for at most one worker
  (`Publishing.ConvergesIffOneWorker`).
- A flush during a Load, or an expiry, drops its lock (`KeyVersions.LostLockBreaksOrder`);
  exactly those that meet no client between lock and write, or no second client, keep the order
  of writes (`KeyVersions.OrderSurvivesIff`).
- A lost notification leaves cached feeds stale, at once
  (`Losses.LostNotificationLeavesStale`) or with the next post (`Losses.LostFollowerLeavesStale`),
  exactly if the write hits a cached feed or list (`Losses.LossHarmlessIff`).
- A consumer may run unregistered, and then its user may have two
  (`Strays.LateCleanupLeavesStray`, `Strays.FailedStopLeavesStray`); exactly which steps leave
  one, and exactly which runs have none, is `Strays.NeverStrayIff`.
- Row loops never consult `rows.Err`, so a lost connection silently shortens a result;
  `Storage.Database.GetPostsFeedByUserId` and its siblings say exactly when the result is whole.
- A registration event that is dropped leaves its user pending for good
  (`Saga.DroppedStaysPending`), and nothing else does (`Saga.SettledWhenQueuesEmpty`).
- Concatenating ids of different lengths does not identify a pair
  (`DialogIds.UnequalLengthsShareDialog`, `DialogIds.CombinedDeterminesPairIff`).

## Model

| member | source | states |
|---|---|---|
| Coherence.StaleOnlyWhileCovered | backend/social/internal/service/feed/post_feed_updater.go:186-236 | any number of workers and readers, every interleaving of lock, query, write and unlock with database writes, evictions, redeliveries and flushes, and with lost notifications, failing accesses, queries cut short without an error and locks that expire or are flushed: a cached feed differs from the query only while a notification or a worker is still going to query it again, a worker is about to overwrite it, or a refresh of it was lost or cut short and not made up for; likewise a feed read under a lock still held; a cached subscriber list is wrong about u only while u's own friend notification is under way, or after its loss, or if u was cut off the list, or if the list was cached without its lock |
| Coherence.CoherentWhenDrained | backend/social/internal/service/feed/post_feed_updater.go:113-236 | once no notification is outstanding and the workers are idle, every cached entry without damage is what the database says, even while readers are at work |
| Coherence.NoDamageWithoutFaults | backend/social/internal/service/feed/post_feed_updater.go:113-236 | a run in which no notification is lost, no worker fails, no query is cut short and no held lock is dropped does no damage, so after draining all cached entries are what the database says |
| Coherence.OrdinaryStepsAreNoFaults | backend/social/internal/service/feed/post_feed_updater.go:113-236 | no write, eviction, redelivery, failing reader, expiry of a free lock or flush that meets no lock counts as a fault |
| Coherence.LoadsAreExclusive | backend/social/internal/service/cache/redis/redis.go:57-71 | in every state of a run without faults no two goroutines are inside a Load of the same key |
| GoroutineSteps.AdvanceIsGoroutineStep | backend/social/internal/service/feed/post_feed_updater.go:186-236 | every step of a goroutine changes only what its place in the protocol allows: the entry and lock of its own key, its own state; it publishes only the value it loaded; every refresh it owed is still owed, was just queried under the lock, or is on the account of damage |
| GoroutineSteps.FailureIsGoroutineStep | backend/social/internal/service/feed/post_feed_updater.go:188-234 | the same of every failing access: what it gives up is on the account of damage |
| GoroutineSteps.CutIsGoroutineStep | backend/social/internal/storage/sql/post_feed_storage.go:38-46 | the same of a query cut short: the goroutine takes the rows that arrived for the whole answer, and whatever is missing is on the account |
| GoroutineSteps.FailureKeepsRest | backend/social/internal/service/feed/post_feed_updater.go:226-234 | a failure changes no cache, no table and nothing published; the users a worker has still to load after the one it fails at stay to be loaded, and everything else is given up |
| GoroutineSteps.CutKeepsFirstRows | backend/social/internal/storage/sql/post_feed_storage.go:38-46 | a query cut short goes on with exactly the rows that arrived |
| Coherence.StepKeepsInv | backend/social/internal/service/feed/post_feed_updater.go:113-236 | each step, of whoever, and everything that goes wrong preserves the two mutually dependent staleness invariants and the lock invariant |
| Coherence.MissedFollowerIsOwed | backend/social/internal/service/feed/post_feed_updater.go:215-226 | a follower missing from the subscriber list a post is fanned out through has a friend notification of her own outstanding, or it was lost |
| Coherence.FeedOwedKept | backend/social/internal/service/feed/post_feed_updater.go:188-226 | the only refresh of u that stops being owed after a goroutine's step is the one the step runs under the lock |
| Coherence.LossIsDamage | backend/pkg/queue/rabbit/consumer.go:99 | a lost notification puts on the account everybody it would have refreshed, and nobody else |
| Accounting.DamageIsLocal | backend/social/internal/service/feed/post_feed_updater.go:186-236 | a step puts the feed of u on the account only if its goroutine, or the notification it loses, is about u: a follower of its author, its user or the feed it loads |
| Coherence.WriteKeepsFeedsCovered | backend/social/internal/service/post_service.go:32-57 | a committed write leaves every feed it changes covered by the notification it causes |
| Draining.WorkTerminates | backend/social/internal/service/feed/post_feed_updater.go:113-236 | every step of work, every failure and every loss lowers one lexicographic measure (pending notifications, lookups to finish, feeds still to load) |
| Draining.NoScheduleRunsForEver | backend/social/internal/service/feed/post_feed_updater.go:113-236 | no schedule of work, failures, losses and queries cut short, however unfair, goes on for ever |
| Draining.NoDeadlock | backend/social/internal/service/cache/redis/redis.go:57-71 | while anything is under way and there is a worker, some goroutine can move without doing damage: whoever owns a lock can go on |
| Draining.StuckOnlyWhenCoherent | backend/social/internal/service/feed/post_feed_updater.go:113-176 | the goroutines can stop only in a state in which every undamaged entry agrees with the database |
| Draining.BacklogDrains | backend/social/internal/service/feed/post_feed_updater.go:113-176 | from every reachable state the backlog can be worked off on the unchanged database without a fault, ending coherent but for the damage there was |
| Publishing.PublishedConverges | backend/social/internal/service/feed/post_feed_updater.go:199-235 | one worker: when the notifications are worked off, the feed published last to a user is that user's current feed, in any delivery order and despite evictions, concurrent readers and faults that did not hit her |
| Publishing.ConvergesIffOneWorker | backend/social/internal/service/feed/post_feed_updater.go:227-232 | over all runs, push convergence holds for a number of workers if and only if it is at most one |
| Publishing.WorkersPublishOutOfOrder | backend/social/internal/service/feed/post_feed_updater.go:227-232 | for every number of workers from two on, a concrete run without faults after which both caches are right and yet the last published feed is the older one, because publishing happens after the lock is released |
| Schedules.NotificationIsSchedule | backend/social/internal/service/feed/post_feed_updater.go:125-158 | what the message loop does to the caches with one notification is what one schedule of the small steps does |
| Schedules.BacklogIsSchedule | backend/social/internal/service/feed/post_feed_updater.go:113-165 | the message loop over a whole backlog is one schedule of a worker in the step model |
| Schedules.ReaderIsSchedule | backend/social/internal/service/feed/post_feed_service.go:23-36 | a reader that finds the feed cached changes nothing; one that does not find it, and finds the lock free, caches the current feed, publishes nothing and gives the lock back |
| Schedules.RedeliveryRepairs | backend/social/internal/service/feed/post_feed_updater.go:186-201 | one friend notification (u, a) handled without a fault makes good all damage to u's feed, to u as a subscriber of a, to a's list and to the publications to u, and does none |
| Losses.LossHarmlessIff | backend/social/internal/service/post_service.go:38 | with nothing under way and every cached feed and list right, losing the notification of a write leaves every entry right, and every entry cached later without another fault, if and only if the write hits no cache: no cached feed that it touches, told from the feed before the write, and no cached list of the author followed or left |
| Losses.LostFollowerLeavesStale | backend/social/internal/service/friend_service.go:32 | a concrete new follower whose notification is lost: all cached feeds are still right, but the next post does not reach her |
| FeedChanges.WriteChangesFeedIff | backend/social/internal/storage/sql/post_feed_storage.go:20-28 | a write changes a user's feed if and only if it touches it: a post that comes in reach fits into the feed before the write, or a post of the feed goes out of reach, is deleted or gets another text |
| Accounting.RunIgnoresDamage | backend/social/internal/service/feed/post_feed_updater.go:113-236 | what the account of damage says makes no difference to any run |
| Losses.LostNotificationLeavesStale | backend/social/internal/service/post_service.go:38 | a concrete post whose lost notification leaves a follower's feed stale with nothing under way |
| KeyVersions.CacheWritesAreMonotone | backend/social/internal/service/cache/redis/redis.go:51-101 | for any loader and every interleaving of Load, GetOrLoad, commits, expiring entries and failures at any stage, the release of a lock included, in which no lock that protects anything is lost: each written value is the loader's answer on some database state, the entry is the last write, and successive writes of a key never go back to an older state |
| KeyVersions.OrderSurvivesIff | backend/social/internal/service/cache/redis/redis.go:46-71 | in every reachable state and for every step: writes stay ordered afterwards, if and only if the step is no flush that meets a client between taking its lock and writing its entry and no expiry of such a client's lock, or there is no second client |
| KeyVersions.LostLockBreaksOrder | backend/social/internal/service/cache/redis/redis.go:46-62 | a concrete run in which a Load in progress loses its lock, by FlushDB or because it expires, and an older value overwrites a newer one |
| KeyVersions.FailureReleasesLock | backend/social/internal/service/cache/redis/redis.go:62-86 | a failing client gives up its own lock and no other, a failing release leaves every lock, and neither touches an entry |
| KeyVersions.LookupLoadsMissingOnly | backend/social/internal/service/cache/redis/redis.go:88-101 | GetOrLoad loads a missing entry only |
| SocialDb.FeedIsTopFeed | backend/social/internal/storage/sql/post_feed_storage.go:20-28 | a list is the feed query's answer if and only if it is sorted newest first without repetition, holds only friends' posts, has at most limit entries, and every omitted friend post is older than every included one, with the limit reached |
| SocialDb.FeedNewestFirst | backend/social/internal/storage/sql/post_feed_storage.go:20-28 | by the column itself: create times descend, only friends' posts, none twice, at most limit, and at offset 0 a friend post is left out only if the limit is reached and all included ones are at least as new |
| SocialDb.TimelineMeaning | backend/social/internal/storage/sql/post_feed_storage.go:20-25 | join and order: exactly the posts of the user's friends, each once, newest first |
| SocialDb.SubscribersMeaning | backend/social/internal/storage/sql/friend_storage.go:64-68 | exactly the followers of the author, each once |
| SocialDb.WriteFrame | backend/social/internal/storage/sql/friend_storage.go:24-47 | a post write by a changes no feed of a user who does not follow a and no subscription; adding or deleting (u, f) changes no feed but u's and no subscription but u's to f |
| SocialDb.ExecuteEffect | backend/social/internal/storage/sql/post_storage.go:47-71 | what each successful write leaves in the tables, row by row; an edited post keeps author and times, a post of the same id under another author is untouched |
| SocialDb.WriteOutcome | backend/social/internal/storage/sql/friend_storage.go:29-62 | for each of the five writes, over the rows: exactly when it succeeds, and with which error it fails otherwise |
| SocialDb.ExecuteKeepsKeys | backend/migrator/migrations/20241213180000_posts.sql:3-13 | every write keeps both primary keys |
| SocialDb.CachedPageIsQueryPage | backend/social/internal/service/feed/post_feed_service.go:23-36 | a page cut out of a coherent cached feed is the page the SQL query itself returns for that limit and offset, whenever offset + limit is within the maximum |
| SocialDb.PagesRebuildFeed | backend/social/internal/service/feed/post_feed_service.go:32-34 | consecutive pages put together are exactly the corresponding prefix of the feed |
| Storage.Database.InsertFriend | backend/social/internal/storage/sql/friend_storage.go:29-43 | without a fault succeeds if and only if both users exist and there is no such row, which it then appends; otherwise reports the missing user or the duplicate and changes nothing |
| Storage.Database.DeleteFriendRow | backend/social/internal/storage/sql/friend_storage.go:50-62 | without a fault succeeds if and only if the row is there, wherever it stands, and removes it and no other; otherwise reports that there is none |
| Storage.Database.InsertPost | backend/social/internal/storage/sql/post_storage.go:30-45 | without a fault succeeds if and only if the author exists and the id is unused, and appends and returns the row, both its times those of the insertion; otherwise says which is missing and changes nothing |
| Storage.Database.EditPostText | backend/social/internal/storage/sql/post_storage.go:54-66 | without a fault succeeds if and only if some row has that id and author, and changes the text of that row only and returns it; otherwise reports that there is none |
| Storage.Database.DeletePostRow | backend/social/internal/storage/sql/post_storage.go:73-85 | without a fault succeeds if and only if some row has that id and author, and removes it and no other; otherwise reports that there is none |
| Storage.Database.GetPostsFeedByUserId | backend/social/internal/storage/sql/post_feed_storage.go:30-47 | create times descend; only friends' posts, each once; with every row delivered and offset 0, every friend post left out is no newer than any included and is left out only if the limit is reached; the answer is whole if and only if no row was lost silently, a lost connection yielding a prefix without an error, since rows.Err is not consulted |
| Storage.Database.GetUserIdsWithFriend | backend/social/internal/storage/sql/friend_storage.go:70-87 | returns only followers, each once, and all of them if and only if no row was lost silently |
| Storage.PrefixOfFollowers | backend/social/internal/storage/sql/friend_storage.go:78-86 | a proper prefix of the rows misses a follower |
| Storage.FriendService.AddFriend | backend/social/internal/service/friend_service.go:28-34 | succeeds exactly when the row can be inserted, and notifies if and only if the write committed, with this user and friend; a notification that cannot be sent is no error |
| Storage.FriendService.DeleteFriend | backend/social/internal/service/friend_service.go:36-42 | succeeds exactly when the row is there, removes it, and notifies if and only if it did |
| Storage.PostService.CreatePost | backend/social/internal/service/post_service.go:32-40 | succeeds exactly for an existing author and an unused id; stores the five fields, then notifies with the stored post |
| Storage.PostService.UpdatePost | backend/social/internal/service/post_service.go:42-49 | succeeds exactly for the author of the post; replaces its text and nothing else, then notifies with the edited post |
| Storage.PostService.DeletePost | backend/social/internal/service/post_service.go:51-57 | succeeds exactly for the author of the post; removes it and nothing else, then notifies |
| Storage.GetUserPosts | backend/social/internal/service/feed/post_feed_service.go:23-36 | refuses exactly the windows beyond the maximum length, passes a cache failure on, and otherwise returns the query's page when the cached feed is current |
| RedisCaching.RedisCache.Load | backend/social/internal/service/cache/redis/redis.go:51-86 | fills the entry with the loader's answer or changes nothing and reports which stage failed, each by its own error; the lock is free again on every path unless its release fails |
| RedisCaching.RedisCache.GetOrLoad | backend/social/internal/service/cache/redis/redis.go:88-121 | a readable entry is returned without lock or load, an unreadable one is an error, and only a missing one is loaded |
| RedisCaching.RedisCache.InvalidateAll | backend/social/internal/service/cache/redis/redis.go:46-49 | empties the database, held locks included |
| FeedUpdater.PostFeedUpdater.RefreshFeed | backend/social/internal/service/feed/post_feed_updater.go:227-233 | loads one feed and, if that succeeds, publishes it; a publication that fails is no error |
| FeedUpdater.PostFeedUpdater.ProcessUpdateFriend | backend/social/internal/service/feed/post_feed_updater.go:186-201 | reloads the friend's subscribers, then the user's feed, stopping at the first failure and returning it |
| FeedUpdater.PostFeedUpdater.ProcessUpdateFeed | backend/social/internal/service/feed/post_feed_updater.go:215-236 | the subscriber loop leaves the caches and publications of the fan-out function, and its error, for every pattern of failures |
| FeedUpdater.PostFeedUpdater.ProcessInvalidateAll | backend/social/internal/service/feed/post_feed_updater.go:171-176 | flushes both caches, the second only if the first succeeds |
| FeedUpdater.PostFeedUpdater.ProcessEvents | backend/social/internal/service/feed/post_feed_updater.go:113-165 | the message loop: every message has its effect in order, unreadable and failing ones stop nothing; after a last, fault-free flush message both caches are empty |
| FanOut.FanOutRefreshesSuccesses | backend/social/internal/service/feed/post_feed_updater.go:226-234 | exactly the subscribers whose Load succeeded have a new entry, the query's answer at that moment; all other entries are as before |
| FanOut.FanOutPublishesSuccesses | backend/social/internal/service/feed/post_feed_updater.go:226-234 | exactly the feeds that were loaded and could be sent are published, in list order, each as it was loaded |
| FanOut.SuccessesMeaning | backend/social/internal/service/feed/post_feed_updater.go:226-234 | the positions a feed is published from, in order, each once |
| FanOut.FanOutErrorIsLast | backend/social/internal/service/feed/post_feed_updater.go:228-235 | an error is returned exactly when some attempt failed, and it is that of the last failure |
| FanOut.PostMessageKeepsCovered | backend/social/internal/service/feed/post_feed_updater.go:215-236 | fanning a post out through a stale subscriber list still leaves every stale feed with a message to come |
| FanOut.BacklogLeavesCachesCurrent | backend/social/internal/service/feed/post_feed_updater.go:113-165 | if every stale entry had a message in the backlog, then after the backlog, in whatever order, no entry is stale |
| Subscriptions.SubscribedKeepsInv | backend/social/internal/service/feed/post_feed_user_subscriber.go:47-75 | subscribing, and failing to, keeps: both maps have the same users, none with an empty set; registered channels are open, all others closed exactly once; a registered consumer runs and its goroutine is still to clean up |
| Subscriptions.UnsubscribedKeepsInv | backend/social/internal/service/feed/post_feed_user_subscriber.go:159-189 | unsubscribing, of a known or unknown subscription, keeps the same invariant |
| Subscriptions.CleanedUpKeepsInv | backend/social/internal/service/feed/post_feed_user_subscriber.go:101-125 | a goroutine's cleanup keeps it, however late it runs |
| Subscriptions.CleanedUpCloses | backend/social/internal/service/feed/post_feed_user_subscriber.go:105-112 | the cleanup closes and forgets exactly the channels of its user, also those of newer subscriptions |
| Subscriptions.UnsubscribedUndoesSubscribed | backend/social/internal/service/feed/post_feed_user_subscriber.go:47-189 | unsubscribing restores both maps, and the running consumers unless the consumer cannot be stopped; else only the closed channel and the goroutine of a started consumer remain |
| Strays.CleanupKeepsNoStraysIff | backend/social/internal/service/feed/post_feed_user_subscriber.go:114-124 | a cleanup leaves a running consumer unregistered if and only if the user's consumer has been replaced since, or cannot be stopped |
| Strays.UnsubscribedKeepsNoStraysIff | backend/social/internal/service/feed/post_feed_user_subscriber.go:176-188 | unsubscribing leaves one if and only if the last subscription of the user goes and the consumer cannot be stopped |
| Strays.SubscribedKeepsNoStraysIff | backend/social/internal/service/feed/post_feed_user_subscriber.go:86-98 | subscribing leaves one if and only if a consumer that delivers no data cannot be stopped |
| Strays.NeverStrayIff | backend/social/internal/service/feed/post_feed_user_subscriber.go:47-189 | over whole runs of the handlers: in no state an unregistered consumer runs, if and only if no step is one of those three |
| Strays.NoStraysMeansOneConsumer | backend/social/internal/service/feed/post_feed_user_subscriber.go:52-60 | with no unregistered consumer running every user has at most one |
| Strays.FailedStopLeavesStray | backend/social/internal/service/feed/post_feed_user_subscriber.go:182-188 | a single subscription whose consumer cannot be stopped; the next one runs a second consumer |
| Strays.LateCleanupLeavesStray | backend/social/internal/service/feed/post_feed_user_subscriber.go:101-125 | a concrete run after which two consumers of one user run, and a subscription nobody cancelled is gone |
| Subscriber.PostFeedUserSubscriber.SubscribePostFeed | backend/social/internal/service/feed/post_feed_user_subscriber.go:47-75 | in place: the registry becomes that of the specification, the returned channel is open and registered, an error means nothing was registered |
| Subscriber.PostFeedUserSubscriber.PrepareConsumer | backend/social/internal/service/feed/post_feed_user_subscriber.go:77-157 | starts a new consumer with its goroutine; without data it stops the consumer again, which keeps running only if that fails |
| Subscriber.PostFeedUserSubscriber.UnsubscribePostFeed | backend/social/internal/service/feed/post_feed_user_subscriber.go:159-189 | in place; no channel is closed twice and no missing consumer is used |
| Subscriber.PostFeedUserSubscriber.Cleanup | backend/social/internal/service/feed/post_feed_user_subscriber.go:101-125 | in place; the deferred cleanup closes each channel of the user once and tears the user down |
| Subscriber.PostFeedUserSubscriber.CloseAll | backend/social/internal/service/feed/post_feed_user_subscriber.go:106-110 | closes exactly the user's channels, none of them closed before |
| Subscriber.PostFeedUserSubscriber.CloseEach | backend/social/internal/service/feed/post_feed_user_subscriber.go:107-109 | the loop closes each channel once |
| Subscriber.PostFeedUserSubscriber.Deliver | backend/social/internal/service/feed/post_feed_user_subscriber.go:128-148 | a message goes once to every channel of its user, to no other and to no closed one; one that cannot be read goes nowhere |
| Subscriber.DoneSignal.Fire | backend/social/internal/server/http/manual_routes.go:106-119 | however often it is called, the done channel is closed once |
| Subscriber.Listen | backend/social/internal/server/http/manual_routes.go:144-165 | the frames are the feeds before the first end event, frame i the i-th of them, and one closing frame last |
| Subscriber.Serve | backend/social/internal/server/http/manual_routes.go:134-165 | a handler subscribes, writes the feeds as they come and a closing frame, or only an abnormal closure if no consumer can be had, and leaves both maps as it found them, and the running consumers too unless one cannot be stopped |
| Handlers.SubscriptionsHaveOneHandler | backend/social/internal/server/http/manual_routes.go:106-165 | in every run a registered subscription belongs to exactly one live handler, of the same user, and its channel is open; no channel and no done channel is closed twice |
| Handlers.NoRegistryLeak | backend/social/internal/server/http/manual_routes.go:134-142 | once no handler is listening both maps are empty |
| Handlers.NewcomerCanListen | backend/social/internal/server/http/manual_routes.go:121-143 | whoever connects can be registered, on a channel of her own, and no other handler is disturbed |
| Handlers.RefusedReturns | backend/social/internal/server/http/manual_routes.go:134-139 | a handler whose subscription is refused returns and has changed no map and closed no channel |
| Handlers.ListeningOrTornDown | backend/social/internal/server/http/manual_routes.go:144-165 | a listening handler is registered exactly while its channel is open, and can return exactly if its connection ended or it was torn down by a cleanup |
| Handlers.EveryHandlerCanFinish | backend/social/internal/server/http/manual_routes.go:106-165 | from every reachable state all handlers can be brought to their end, with an empty registry |
| Saga.FinalStatusIsGreatest | backend/social/internal/storage/sql/user_storage.go:38-47 | after any sequence of events each user's status is the greatest of the initial one and the verdicts on that user, and nobody is added or removed |
| Saga.OrderAndDuplicatesDoNotMatter | backend/social/internal/service/user_status_service.go:98-129 | sequences with the same events, in any order and with any duplication, have the same outcome |
| Saga.OnlyVerdictsCount | backend/social/internal/service/user_status_service.go:105-119 | events without a user id, of other types or unreadable change no user |
| Saga.UnreadableChangesNobody | backend/verifier/internal/service/verifier_processor.go:59-66 | a message nobody can read goes through the verifier as a failure about nobody, and that one changes no user |
| Saga.NothingLostOrDuplicated | backend/verifier/internal/service/verifier_processor.go:59-77 | in every run a user is pending, stored as 0, exactly while one event about her is in flight or one was lost, never both and never two; otherwise she is stored as 100 or 10, as the verifier decided |
| Saga.SettledWhenQueuesEmpty | backend/social/internal/service/user_service.go:66-70 | with both queues empty exactly those users are pending of whom a step of the run dropped an event, and all others have their verdict |
| Saga.LostIffDropped | backend/social/internal/service/user_service.go:86-101 | a user is lost exactly if a step dropped an event about her or its effect, and is never found again |
| Saga.DroppedStaysPending | backend/social/internal/service/user_status_service.go:121-124 | a user of whom something was dropped stays pending for good |
| Saga.StatusIsFinal | backend/social/internal/storage/sql/user_storage.go:38-42 | in every run a status never decreases, and one that is no longer pending never changes |
| Saga.RunsAreBounded | backend/verifier/internal/service/verifier_processor.go:59-77 | a run has at most three steps per registration or unreadable message, beyond the work it started with |
| Saga.StopsOnlyWhenEmpty | backend/verifier/internal/service/verifier_processor.go:59-77 | some service can go on exactly as long as a queue is not empty |
| Saga.QueuesDrain | backend/social/internal/service/user_status_service.go:76-96 | from every state the queues can be worked off without another loss |
| SagaServices.UserStorage.CreateUser | backend/social/internal/storage/sql/user_storage.go:29-36 | inserts the user or changes nothing and says why |
| SagaServices.UserStorage.UpdateUserStatus | backend/social/internal/storage/sql/user_storage.go:44-47 | the guarded update: never lowers a status, a missing id or user is no error |
| SagaServices.UserService.RegisterUser | backend/social/internal/service/user_service.go:44-73 | stores a pending user and announces her; nothing is announced that is not stored |
| SagaServices.VerifierProcessor.ProcessEvent | backend/verifier/internal/service/verifier_processor.go:59-77 | every message is answered with one verdict carrying its payload; an unreadable one with a failure about nobody |
| SagaServices.UserStatusService.ProcessEvent | backend/social/internal/service/user_status_service.go:98-129 | a success stores 100 unless that is there, a failure 10 only for a user below it, for the user named and nobody else; everything else is an error and changes nothing |
| SagaServices.UserStatusService.ProcessEvents | backend/social/internal/service/user_status_service.go:76-96 | whatever their order, a user with a written success ends at 100, one with written failures only at 10, and everybody else as she was |
| DialogIds.DialogIdSymmetric | backend/dialog/internal/service/shard/dialog_id_obtainer.go:18-25 | both users obtain the same dialog id |
| DialogIds.Hex16RoundTrip | backend/dialog/internal/service/shard/dialog_id_obtainer.go:26 | 16 hexadecimal digits, from which the word can be read back |
| DialogIds.RenderInjective | backend/dialog/internal/service/shard/dialog_id_obtainer.go:25-27 | 32 characters: the first 16 are the hexadecimal digits of the first word of the hash, the last 16 those of the second |
| DialogIds.LesserComesFirst | backend/dialog/internal/service/shard/dialog_id_obtainer.go:18-25 | the hashed string is the lesser id, by code points, followed by the greater one |
| DialogIds.HexExample | backend/dialog/internal/service/shard/dialog_id_obtainer.go:26 | digits are lower-case, padded with zeros and most significant first, on concrete words |
| DialogIds.CombinedDeterminesPair | backend/dialog/internal/service/shard/dialog_id_obtainer.go:20-25 | for ids of one length the hashed string determines the unordered pair |
| DialogIds.CombinedDeterminesPairIff | backend/dialog/internal/service/shard/dialog_id_obtainer.go:20-25 | in general, equal hashed strings mean the same pair exactly if the lesser ids are equally long |
| DialogIds.UnequalLengthsShareDialog | backend/dialog/internal/service/shard/dialog_id_obtainer.go:20-25 | a concrete pair of pairs that share a dialog under every hash |
| DialogIds.DialogIdDeterminesPair | backend/dialog/internal/service/shard/dialog_id_obtainer.go:18-28 | without a collision on the two strings, dialog ids are equal exactly if the pairs are |
| Dialogs.SelectIsHistory | backend/dialog/internal/service/dialog_service.go:49-55 | the dialog query returns exactly the messages between the two users, each once, newest first, the same for both, if the hash is collision-free on the strings used |
| Dialogs.SelectDialogRows | backend/dialog/internal/storage/sql/dialog_storage.go:40-45 | exactly the rows of the dialog, with descending times |
| Dialogs.HistoryUnique | backend/dialog/internal/storage/sql/dialog_storage.go:40-45 | there is only one such list |
| Dialogs.DialogShowsWhatWasSent | backend/dialog/internal/service/dialog_service.go:28-55 | after any run of requests with fresh ids, for each of the two alike: every sending between them has a message in the listing with its id, sender, recipient, text and time, every listed message comes from such a sending, none is listed twice, and the times descend |
| Dialogs.AfterInsertsMeaning | backend/migrator/migrations/20241220180000_messages.sql:3-11 | whatever is inserted, the primary key holds and nothing is stored that was not sent |
| Dialogs.DialogStorage.CreateMessage | backend/dialog/internal/storage/sql/dialog_storage.go:27-38 | stores and returns the message with the given id, dialog, sender, recipient and text and the database's time, or refuses a taken key |
| Dialogs.DialogStorage.GetMessagesInDialog | backend/dialog/internal/storage/sql/dialog_storage.go:47-64 | returns the dialog's rows with descending times, all of them if and only if none was lost silently |
| Dialogs.DialogService.CreateMessage | backend/dialog/internal/service/dialog_service.go:28-47 | stores and returns a message from the sender to the recipient with this text and the database's time, under the dialog of the two, and keeps the table valid |
| Dialogs.DialogService.GetMessagesBetween | backend/dialog/internal/service/dialog_service.go:49-55 | the history of the two users with descending times, or the newest part of it if rows are lost |

## Left out

- RedisCaching.RedisCache.Load: the three attempts to take the lock are one, and in this sequential class no lock expires; expiring locks are steps of `Protocol`.
- FeedUpdater.PostFeedUpdater.ProcessEvents: locks are always released; a lock that stays taken until it expires, because its release failed, is not followed up in the worker class or in `Protocol`.
- FeedUpdater.PostFeedUpdater.RefreshFeed: a query that reports no error has returned every row; queries cut short are in `Storage` and steps of `Protocol`.
- Subscriber.PostFeedUserSubscriber.Deliver: one atomic step; the code reads the map without the lock there, and a send may meet a close.
- Subscriber.Serve: one handler without interference from others; interleaved handlers are in `Handlers`. A frame that cannot be written counts as written, the code does not look.
- Schedules.BacklogIsSchedule: for a worker without faults and without interference.
- Replica lag of the database, and the choice between master and replica.
- Values in the caches are stored as they are; the conversion to and from strings is assumed to be lossless.
- RabbitMQ exchanges, bindings and acknowledgements: a queue is a multiset, and messages for a user reach that user's queue.
- MurmurHash itself: any function into two 64-bit words.
- The order of messages in the Tarantool storage of dialogs, which does not sort by time.
- Columns of users other than the identifier and the status; search, login, tokens and password hashing.
- Starting and stopping the services, tracing, logging and metrics.
- Generated API code, the remaining HTTP handlers, the calendar type and the incremental cache updates discussed in the caching report.
