# W800 OSAL adapter over the Rhino kernel — Dafny model

`wm_osal.c` gives the W800 firmware a small, kernel-neutral API for tasks,
semaphores, queues, timers and critical sections, and forwards each call to the
Rhino kernel. Kernel results are reduced to `TLS_OS_SUCCESS` or
`TLS_OS_ERROR`. This project models the logic the adapter itself adds:

- **Argument translations** (`Translate`): the default task name chosen from the
  priority, the stack size in bytes turned into 4-byte words, a wait time of 0
  turned into "wait forever", a timer's first expiry and reload ticks at creation
  and on change, and the byte size of a queue's message storage.
- **The well-known priority table** (`Registry`): three slots for priorities 2, 8
  and 9. Task creation fills them and delete-by-priority empties them.
- **The critical-section counter** (`Critical`): `os_cnter` and the interrupt-enable
  flag as a pure state machine, with lemmas about sequences of enters and leaves.
- **The adapter's global state** (`Osal.Osal`): the slots, the counter, the flag,
  the blocks obtained from `tls_mem_alloc` (a map from address to content) and the
  list of kernel calls and clean-up callbacks issued so far. Its methods follow the C functions branch by
  branch. This covers the build without kernel dynamic allocation.
- **Callers' guarantees** (`Lifecycle`): create-then-delete sequences proved from
  the methods' contracts.

Kernel calls and allocations are not executed by the model. Each one becomes a
parameter of the method that makes it: `kernelOk: bool` for a kernel result, and
`Option<BlockId>` for a `tls_mem_alloc` result, where `None` is NULL. A returned
block is required not to be live, which is the allocator's own guarantee. The
kernel's "wait forever" value is taken to be the all-ones 64-bit tick count. The
kernel header `k_api.h` is not part of this model.

Behaviour of the code worth noting:

- `tls_os_set_critical` disables interrupts on every call, not only when the
  counter goes from 0 to 1 (`Critical.Enter`).
- `tls_os_timer_change` sets the reload ticks to the raw `ticks`, not to the
  clamped first expiry. A change to 0 ticks therefore turns a periodic timer into
  a one-shot timer that fires after one tick (`Translate.ChangeZeroMakesOneShot`).
- `os_cnter` is a 32-bit unsigned counter, so 2^32 nested enters wrap it to 0
  (`Critical.EntersWrap`).
- `queue_size * sizeof(void *)` is computed in 32 bits on this target. For
  2^30 slots or more the storage is smaller than the queue the kernel is told
  about (`Translate.StorageBytes`, `Translate.StorageBytesWraps`).

## Model

| member | source | states |
|---|---|---|
| OsalTypes.StatusOf | components/chip_w800/wmsdk/src/os/wm_osal.c:502-510 | a kernel result maps to SUCCESS exactly when the kernel succeeded |
| Translate.DefaultTaskName | components/chip_w800/wmsdk/src/os/wm_osal.c:112-130 | the default name is the table entry for priorities 4, 5, 7, 9, 10, 13, 14 and 28, and "wm_task" for every other priority |
| Translate.DefaultTaskNameDistinct | components/chip_w800/wmsdk/src/os/wm_osal.c:112-130 | the generic name is given exactly to priorities outside the table, and distinct table priorities get distinct names |
| Translate.NameOr | components/chip_w800/wmsdk/src/os/wm_osal.c:105-108 | a non-null name is used unchanged; only a null one falls back to the default |
| Translate.StackWords | components/chip_w800/wmsdk/src/os/wm_osal.c:133-135 | the stack word count is the byte size divided by 4, rounded down (4w <= size < 4w + 4) |
| Translate.WaitTicks | components/chip_w800/wmsdk/src/os/wm_osal.c:497-500 | the kernel timeout is "forever" exactly when the wait time is 0; any other wait time is passed unchanged |
| Translate.WaitTicksInjective | components/chip_w800/wmsdk/src/os/wm_osal.c:774-777 | distinct wait times reach the kernel as distinct timeouts |
| Translate.FirstExpiry | components/chip_w800/wmsdk/src/os/wm_osal.c:1054 | first expiry is the period when it is non-zero and 1 when it is 0, so it is always at least 1 |
| Translate.CreateRound | components/chip_w800/wmsdk/src/os/wm_osal.c:1055 | reload ticks at creation are the first expiry for a repeating timer and 0 for a one-shot |
| Translate.CreateZeroPeriod | components/chip_w800/wmsdk/src/os/wm_osal.c:1054-1055 | a zero period gives a first expiry of 1 and, when repeating, a period of 1 |
| Translate.ChangeRound | components/chip_w800/wmsdk/src/os/wm_osal.c:1104 | reload ticks after a change are the raw new ticks if the timer was periodic, else 0; they are 0 exactly when the timer was one-shot or ticks is 0 |
| Translate.ChangeKeepsNature | components/chip_w800/wmsdk/src/os/wm_osal.c:1103-1104 | a change to non-zero ticks keeps the timer periodic or one-shot, and a periodic timer's new period equals its new first expiry |
| Translate.ChangeZeroMakesOneShot | components/chip_w800/wmsdk/src/os/wm_osal.c:1103-1104 | a change to 0 ticks gives a periodic timer first expiry 1 and reload 0, so it becomes one-shot |
| Translate.StorageBytes | components/chip_w800/wmsdk/src/os/wm_osal.c:599 | the storage byte count is 4 times the slot count modulo 2^32: exactly 4 per slot below 2^30 slots, and less than that from 2^30 on |
| Translate.StorageBytesWraps | components/chip_w800/wmsdk/src/os/wm_osal.c:599-607 | 2^30 + 1 slots get 4 bytes of storage and 2^30 slots get none |
| Registry.Slot | components/chip_w800/wmsdk/src/os/wm_osal.c:177-182 | only priorities 2, 8 and 9 have a slot; every other priority reads as empty |
| Registry.Record | components/chip_w800/wmsdk/src/os/wm_osal.c:139-144 | a well-known priority's slot now holds the new handle and every other slot is unchanged; any other priority changes nothing |
| Registry.Clear | components/chip_w800/wmsdk/src/os/wm_osal.c:189-194 | the priority's slot becomes empty and every other slot is unchanged |
| Registry.DelByPriority | components/chip_w800/wmsdk/src/os/wm_osal.c:173-207 | delete succeeds exactly when the slot is filled and the kernel delete succeeds; on success only that slot is cleared and the callback runs iff it is non-null; on error the table is unchanged and the callback does not run |
| Registry.DelOtherPriorityFails | components/chip_w800/wmsdk/src/os/wm_osal.c:175-206 | a priority other than 2, 8 or 9 always fails, with no kernel call, no callback and no change |
| Registry.DelTwiceFails | components/chip_w800/wmsdk/src/os/wm_osal.c:184-206 | after a successful delete, a second delete at the same priority fails whatever the kernel does |
| Registry.CreateThenDel | components/chip_w800/wmsdk/src/os/wm_osal.c:139-198 | creating at a well-known priority and then deleting by it deletes exactly the new task and leaves its slot empty |
| Critical.Enter | components/chip_w800/wmsdk/src/os/wm_osal.c:954-959 | enter always leaves interrupts disabled and increments the 32-bit counter, wrapping to 0 at 2^32 |
| Critical.Release | components/chip_w800/wmsdk/src/os/wm_osal.c:968-978 | leave halts exactly when the counter is 0; otherwise it decrements the counter and enables interrupts when the counter reaches 0, leaving the flag alone otherwise |
| Critical.EntersState | components/chip_w800/wmsdk/src/os/wm_osal.c:954-959 | n enters raise the counter by n modulo 2^32 and leave interrupts disabled unless n is 0 |
| Critical.EntersWrap | components/chip_w800/wmsdk/src/os/wm_osal.c:946-957 | 2^32 nested enters from 0 bring the counter back to 0 |
| Critical.ReleasesState | components/chip_w800/wmsdk/src/os/wm_osal.c:968-978 | k leaves from a counter of at least k succeed and lower it by k; interrupts end enabled exactly when they were enabled or the last leave reached 0 |
| Critical.ReleasesHalt | components/chip_w800/wmsdk/src/os/wm_osal.c:970-973 | more leaves than the counter holds reach the halt |
| Critical.Balanced | components/chip_w800/wmsdk/src/os/wm_osal.c:954-978 | for n >= 1 with counter + n < 2^32, n enters followed by n leaves restore the counter, with interrupts enabled exactly when the counter started at 0 |
| Critical.OutermostSection | components/chip_w800/wmsdk/src/os/wm_osal.c:954-978 | for 0 < n < 2^32, from a zero counter, after n enters interrupts stay disabled through n - 1 leaves, are enabled by the n-th, and the (n+1)-th halts |
| Osal.Osal.constructor | components/chip_w800/wmsdk/src/os/wm_osal.c:41-43 | at start-up all three slots are empty, the counter is 0 and nothing is allocated |
| Osal.Osal.TaskCreate | components/chip_w800/wmsdk/src/os/wm_osal.c:88-155 | allocation failure returns ERROR and changes nothing; otherwise the kernel gets the chosen name, the priority, time slice 50 and the stack in words; on success the block stays live and only a well-known priority's slot is filled; on kernel failure the block is freed and the slots are unchanged |
| Osal.Osal.TaskDel | components/chip_w800/wmsdk/src/os/wm_osal.c:173-207 | status and new slots are those of `DelByPriority`; the kernel delete is called only for a filled slot, and the callback runs once and only after a successful delete |
| Osal.Osal.SetCritical | components/chip_w800/wmsdk/src/os/wm_osal.c:954-959 | returns 1 and moves the counter and interrupt flag by `Enter` |
| Osal.Osal.ReleaseCritical | components/chip_w800/wmsdk/src/os/wm_osal.c:968-978 | halts, with nothing changed, exactly when the counter is 0; otherwise moves the state by `Release` |
| Osal.Osal.SemCreate | components/chip_w800/wmsdk/src/os/wm_osal.c:403-421 | succeeds exactly when allocation and the kernel succeed, leaving one new semaphore block live; any failure leaves the heap unchanged |
| Osal.Osal.SemDelete | components/chip_w800/wmsdk/src/os/wm_osal.c:454-468 | a null handle is a successful no-op; otherwise the kernel delete is called and the block is freed exactly when it succeeds |
| Osal.Osal.SemAcquire | components/chip_w800/wmsdk/src/os/wm_osal.c:491-511 | the kernel take gets the translated wait time, and its result decides the status |
| Osal.Osal.QueueCreate | components/chip_w800/wmsdk/src/os/wm_osal.c:587-620 | succeeds exactly when all three allocations and the kernel succeed, leaving exactly wrapper, control block and storage live; any failure frees every block allocated before it and returns ERROR |
| Osal.Osal.QueueDelete | components/chip_w800/wmsdk/src/os/wm_osal.c:653-670 | a null handle is a successful no-op; otherwise the kernel delete is called and, exactly when it succeeds, wrapper, control block and storage are all freed |
| Osal.Osal.QueueSend | components/chip_w800/wmsdk/src/os/wm_osal.c:705-721 | a null handle reports success without a kernel call; otherwise the kernel send gets the queue's control block, and its result decides the status |
| Osal.Osal.QueueFlush | components/chip_w800/wmsdk/src/os/wm_osal.c:818-831 | the kernel flush gets the queue's control block, and its result decides the status |
| Osal.Osal.QueueReceive | components/chip_w800/wmsdk/src/os/wm_osal.c:768-789 | a null handle reports success without a kernel call; otherwise the kernel receive gets the queue's control block and the translated wait time |
| Osal.Osal.TimerCreate | components/chip_w800/wmsdk/src/os/wm_osal.c:1044-1073 | the kernel gets the name or "wmtimer", the first expiry and the reload ticks, with auto-run off; success leaves one new timer block live holding them; any failure leaves the heap unchanged |
| Osal.Osal.TimerChange | components/chip_w800/wmsdk/src/os/wm_osal.c:1101-1109 | the kernel is called to stop, change and start, in that order, with the new first expiry and reload ticks computed from the timer's current reload ticks |
| Osal.Osal.TimerDelete | components/chip_w800/wmsdk/src/os/wm_osal.c:1150-1165 | a null handle is a successful no-op; otherwise the kernel delete is called and the block is freed exactly when it succeeds |
| Lifecycle.TaskLifecycle | components/chip_w800/wmsdk/src/os/wm_osal.c:101-207 | create at a well-known priority, delete, delete again: the first delete succeeds, the second fails, and only that slot ends empty |
| Lifecycle.QueueLifecycle | components/chip_w800/wmsdk/src/os/wm_osal.c:588-666 | creating a queue and deleting it leaves exactly the blocks that were live before |
| Lifecycle.SemLifecycle | components/chip_w800/wmsdk/src/os/wm_osal.c:406-464 | creating a semaphore and deleting it leaves exactly the blocks that were live before |
| Lifecycle.TimerLifecycle | components/chip_w800/wmsdk/src/os/wm_osal.c:1050-1158 | creating a timer and deleting it leaves exactly the blocks that were live before |
| Lifecycle.NestedCritical | components/chip_w800/wmsdk/src/os/wm_osal.c:954-978 | two nested enters and two leaves from a zero counter never halt; interrupts are still off after the first leave and back on after the second, with the counter at 0 |

## Left out

- The build with kernel dynamic allocation (`RHINO_CONFIG_KOBJ_DYN_ALLOC`): there every create and delete is one kernel call whose result is passed through, so nothing beyond `StatusOf` is left to state. The shared translations (wait time, timer ticks, timer name) are the same functions in both builds.
- What the kernel primitives do: task, semaphore, queue and timer creation, blocking, waking, FIFO order of messages and timer callbacks. They are foreign code. Each one appears as a `KernelCall` entry and a success/failure parameter; apart from the timer's stored ticks (next line), the model gives them no effect on state.
- Osal.Osal.TimerChange: the timer's first expiry and reload ticks live in the kernel's timer control block; the adapter only passes them to `krhino_timer_create` and `krhino_timer_change` and reads `round_ticks` back. The model assumes the kernel stores both values on a successful create or change and leaves them unchanged when a change fails, and records them in the timer's `TimerBlock`; Osal.Osal.TimerCreate relies on the same assumption.
- The stub operations, which have no logic: the mutex and mailbox functions, suspend and resume, `tls_os_init`, `tls_os_start_scheduler`, `tls_os_time_tick`, `tls_os_disp_task_stat_info` and `tls_os_get_type`.
- Operations that are a single kernel call whose arguments are passed unchanged: `tls_os_sem_release` (its status reduced to SUCCESS or ERROR), `tls_os_timer_start`, `tls_os_timer_stop` and `tls_os_time_delay` (no result), and `tls_os_get_time` (the kernel's tick count).
- Opaque pointers passed to the kernel unchanged: task entry function and argument, stack base, timer callback and argument, and the message pointer of a send or receive. They are left out of the `KernelCall` records.
- The interrupt hardware (`__disable_irq`, `__enable_irq`) is reduced to the `irqEnabled` flag. The `wm_printf` diagnostic and the spin loop are reduced to `ReleaseCritical` returning `halts`.
- The sizes of the task control block, the semaphore, timer, queue and wrapper control blocks. Only the storage block's byte count is recorded.
- Osal.Osal.TaskCreate: the C function writes the new handle through an optional out pointer only when that pointer is non-null; the model returns the handle instead. It does not capture a null out pointer, with which the C still returns SUCCESS and leaves the block live with no handle given back, nor aliasing of the handle.
- Osal.Osal.SemCreate: the C function writes the new handle through an optional out pointer only when that pointer is non-null; the model returns the handle instead. It does not capture a null out pointer, with which the C still returns SUCCESS and leaves the block live with no handle given back, nor aliasing of the handle.
- Osal.Osal.QueueCreate: the C function writes the new handle through an optional out pointer only when that pointer is non-null; the model returns the handle instead. It does not capture a null out pointer, with which the C still returns SUCCESS and leaves the block live with no handle given back, nor aliasing of the handle.
- Osal.Osal.TimerCreate: the C function writes the new handle through an optional out pointer only when that pointer is non-null; the model returns the handle instead. It does not capture a null out pointer, with which the C still returns SUCCESS and leaves the block live with no handle given back, nor aliasing of the handle.
- Osal.Osal.TaskDel: the priority arrives as an 8-bit value, as the C signature has it. The model keeps the deleted control block live after the delete, as the code does, and does not model what the callback frees.
- Osal.Osal.SemAcquire: the semaphore handle, null included, is passed to the kernel unchecked, as in the code. The model puts no requirement on it and does not model what the kernel does with a null handle.
- Addresses are abstract. A failed allocation or a null handle is `None`, and a successful allocation is any address that is not live.
