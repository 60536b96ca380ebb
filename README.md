# PRIME buffer sharing, modelled in Dafny

PRIME is the DRM layer that shares GEM buffer objects between devices and processes through
dma-buf file descriptors. An export (handle to fd) wraps a GEM object in a dma-buf once and
caches it on the object. An import (fd to handle) first consults a per-file registry of
(dma-buf, handle) pairs, so a buffer imported twice yields the same handle. Otherwise it
attaches to the buffer, maps it, builds a local object over the mapping, creates a handle and
registers the pair. Each failure releases what was acquired, in reverse order.

The model covers three parts of that code:

- the generic layer: the registry, the two ioctls, the scatter-table builder and the teardown
  helper for imported objects;
- nouveau's versions of export, import, buffer-object creation, the map and unmap callbacks,
  and the release callback;
- i915's versions of export, import, the map and unmap callbacks, and the release callback.

Modules:

- `Kernel`: errno values, pointers that may be NULL or an ERR_PTR (`Ptr<T>`), pages and the
  page size.
- `DmaBufs`: the dma-buf transport, seen from outside. Buffers carry reference counts and sets
  of attachments, attachments carry their live mappings, and a descriptor table maps fds to
  buffers. Each transport call is a method that does its bookkeeping. Get fails only for a
  descriptor missing from the table. Fd, export, attach and map may fail with an arbitrary
  errno. Put, detach and unmap always succeed, as the void kernel calls do.
- `Gem`: GEM objects with the fields PRIME reads and writes, the per-file handle table, and
  the device with its PRIME feature bits and driver callbacks. The callbacks count their calls
  so that contracts can say "called exactly once" or "not called".
- `DrmPrime`, `NouveauPrime` and `I915Dmabuf`: one module per source file.

The registry is a class holding a sequence of members, head first. Its in-place operations are
specified by two functions on that sequence: `Find` (the first match) and `Without` (every
match removed, order kept). The ioctls are methods over the shared objects. Their contracts
give the outcome of every path: which counters moved, what the registry holds and what the
object caches. The imports and the two drivers' exports also return a ghost out-parameter
that names the path taken. The generic export states its outcomes by return value alone.

The code is modelled as written, including these behaviours of the source:

- The generic export stores a failed `prime_export` result in the object, where later calls
  find it. A NULL result makes the ioctl return `PTR_ERR(NULL)`, which is 0.
- The generic import treats a NULL `prime_import` result the same way: the ioctl puts the
  buffer and returns 0 without setting the handle it returns.
- The generic export never drops the object reference its lookup took once the object holds
  a buffer, so every successful call, including one that reuses the cached buffer, leaves one
  more reference on the object.
- Each repeated export installs a new descriptor for the cached buffer without taking a
  reference on the buffer, so two descriptors share the buffer's single reference.
- i915's export keeps the lookup reference when `dma_buf_export` fails.
- i915's import has two paths that skip the rollback chain. A failed page-array allocation
  returns -ENOMEM and releases nothing. A failed handle creation frees only the new object.
  On both paths the buffer reference, the attachment and its mapping are kept.
- i915's import tests the insert result the wrong way round. A successful insert takes the
  rollback path: the call returns 0 and the registry names the buffer, but the buffer
  reference is dropped and the new object's attachment is unmapped and detached. A failed
  insert takes the success path: the call returns 0 with a live handle and an unregistered
  buffer.

## Model

| member | source | states |
|---|---|---|
| DrmPrime.Find | drivers/gpu/drm/drm_prime.c:170-181 | A lookup misses exactly when no member names the buffer; a hit returns the handle of a member (buffer, handle) of the list |
| DrmPrime.FindIsFirstMatch | drivers/gpu/drm/drm_prime.c:174-178 | The lookup answers with the earliest member naming the buffer, which is the most recent insert because inserts go to the head |
| DrmPrime.Without | drivers/gpu/drm/drm_prime.c:184-194 | Removal keeps exactly the members not naming the buffer: each kept member was in the list and none names the buffer, and every member not naming it is kept |
| DrmPrime.WithoutAppend | drivers/gpu/drm/drm_prime.c:188-193 | Removal keeps the surviving members in their order: it distributes over concatenation |
| DrmPrime.WithoutAbsent | drivers/gpu/drm/drm_prime.c:184-194 | Removing a buffer that is not registered leaves the list unchanged |
| DrmPrime.FindWithout | drivers/gpu/drm/drm_prime.c:184-194 | After removing a buffer, lookups of it return -ENOENT and lookups of every other buffer answer as before |
| DrmPrime.UniqueFindsEvery | drivers/gpu/drm/drm_prime.c:170-181 | In a registry with one member per buffer, every member is what a lookup of its buffer returns |
| DrmPrime.WithoutKeepsUnique | drivers/gpu/drm/drm_prime.c:184-194 | Removing every member that names a buffer keeps a registry with one member per buffer free of duplicates |
| DrmPrime.InsertAfterMissKeepsUnique | drivers/gpu/drm/drm_prime.c:64-87 | Import inserts only after a missed lookup, so the registry stays free of duplicate buffers |
| DrmPrime.PrimeFilePrivate.Init | drivers/gpu/drm/drm_prime.c:139-142 | The list is empty and every lookup misses |
| DrmPrime.PrimeFilePrivate.Destroy | drivers/gpu/drm/drm_prime.c:145-152 | Every member is deleted; afterwards every lookup misses |
| DrmPrime.PrimeFilePrivate.Insert | drivers/gpu/drm/drm_prime.c:155-167 | Returns 0 or -ENOMEM. On 0 the list gains exactly (buffer, handle) at the head, the rest unchanged, and a lookup of the buffer now returns the handle. On -ENOMEM the list is unchanged |
| DrmPrime.PrimeFilePrivate.Lookup | drivers/gpu/drm/drm_prime.c:170-181 | Returns 0 with the handle of the first member naming the buffer, or -ENOENT with the handle argument untouched; the list is not changed |
| DrmPrime.PrimeFilePrivate.Remove | drivers/gpu/drm/drm_prime.c:184-194 | The new list is the old one with every member naming the buffer removed and the others kept in order; a lookup of the buffer then misses, and a registry without duplicate buffers stays so |
| DrmPrime.HandleToFdIoctl | drivers/gpu/drm/drm_prime.c:11-43 | Returns -EINVAL without DRIVER_PRIME, then -ENOSYS without prime_export, then -ENOENT for an unknown handle, each with nothing changed. A cached export is reused and prime_export is not called. The first export calls prime_export once. An error or NULL result drops the object reference, returns PTR_ERR of the result (0 for NULL) and stays cached. A buffer keeps the lookup reference and installs a descriptor for the cached buffer. A stale ERR_PTR gives 0 and a failed descriptor |
| DrmPrime.FdToHandleIoctl | drivers/gpu/drm/drm_prime.c:45-100 | Capability errors as for export. A bad descriptor returns its error. A registry hit returns 0 with the stored handle, puts the buffer back and does not call prime_import. A miss calls prime_import exactly once. Every failure puts the buffer back and leaves the registry unchanged. An ERR_PTR import returns its errno; a NULL import returns 0 with the handle untouched. A failed handle creation leaves the object prime_import returned with no references. A failed insert adds exactly one handle, naming the new object, whose references are all released. Success registers (buffer, new handle) at the head and keeps the buffer reference. A registry without duplicate buffers stays so |
| DrmPrime.ImportMiss | drivers/gpu/drm/drm_prime.c:72-99 | After a miss: prime_import runs once. ERR_PTR, NULL, handle and insert failures each put the buffer and leave the registry unchanged. The handle failure leaves the imported object with no references. The insert failure leaves exactly one new handle with no references. Success registers the new handle and keeps the reference without creating a duplicate |
| DrmPrime.PagesToSg | drivers/gpu/drm/drm_prime.c:102-124 | On success a live table of nr_pages entries, entry i covering pages[i] with length PAGE_SIZE at offset 0; null when an allocation fails |
| DrmPrime.GemDestroy | drivers/gpu/drm/drm_prime.c:128-136 | Unmaps only when a table is given, and always detaches the object's attachment from its buffer |
| DrmPrime.ExportTwice | drivers/gpu/drm/drm_prime.c:27-40 | Over two exports of one object, prime_export runs at most once unless it returned NULL. Once a buffer is cached both calls return 0 and every descriptor installed names that one buffer. The two descriptors differ, a buffer made by the first call still holds one reference, and the object gains one reference per call |
| DrmPrime.ImportTwice | drivers/gpu/drm/drm_prime.c:60-90 | For two descriptors naming one buffer: once the first import has registered the buffer, the second is a registry hit returning the same handle, and prime_import runs only for the first |
| DrmPrime.ImportDistinct | drivers/gpu/drm/drm_prime.c:60-90 | On a device with PRIME import, for two descriptors naming different buffers, the second unregistered: prime_import runs for each, and two successes give different handles, both registered, the later at the head |
| NouveauPrime.MapDmaBuf | drivers/gpu/drm/nouveau/nouveau_prime.c:11-23 | A new table of num_pages entries, entry i covering page i of the buffer object with length PAGE_SIZE at offset 0, or null |
| NouveauPrime.UnmapDmaBuf | drivers/gpu/drm/nouveau/nouveau_prime.c:25-30 | The table is freed |
| NouveauPrime.DmabufRelease | drivers/gpu/drm/nouveau/nouveau_prime.c:32-42 | When the released buffer is the object's cached export, prime_fd becomes -1, the export becomes NULL and one object reference is dropped; otherwise the object is unchanged |
| NouveauPrime.PrimeNew | drivers/gpu/drm/nouveau/nouveau_prime.c:50-82 | A bo_new failure is returned as is. A failed GEM allocation releases the new buffer object (its reference count back to 0) and returns -ENOMEM. Success gives a new buffer object over the table, restricted to the GART domain, whose new initialised GEM object points back at it |
| NouveauPrime.HandleToFd | drivers/gpu/drm/nouveau/nouveau_prime.c:84-124 | -ENOENT for an unknown handle. A cached prime_fd is returned with 0, the lookup reference dropped and no new export. A pin failure gives -EINVAL with the reference dropped. An export failure returns its error with the reference dropped, the ERR_PTR staying cached. A first export caches the new buffer and its descriptor and keeps the lookup reference |
| NouveauPrime.WrapImport | drivers/gpu/drm/nouveau/nouveau_prime.c:162-180 | Once the buffer is attached and mapped: the buffer object, handle and insert steps. Each failure leaves the registry unchanged. A buffer object made before a failed GEM allocation is released. A failed handle creation leaves the new GEM object with no references. A failed insert adds exactly one handle, naming a new object whose references are all released. Success gives a new handle for a new object carrying the attachment, registered at the head of the registry |
| NouveauPrime.ImportMapped | drivers/gpu/drm/nouveau/nouveau_prime.c:162-187 | WrapImport followed, on any failure, by unmap, detach and put: the buffer's reference count and attachments return to their values before the call. Success keeps the mapping and the reference, and creates no duplicate registry entry. A failed handle creation leaves the new GEM object with no references |
| NouveauPrime.ImportMiss | drivers/gpu/drm/nouveau/nouveau_prime.c:149-187 | After a miss, holding the buffer reference: attach and map failures detach as needed and put the buffer; later failures are ImportMapped's, so every failure returns the buffer's reference count and attachments to their values before the get; a failed handle creation leaves the new GEM object with no references; success keeps the reference and one mapped new attachment |
| NouveauPrime.FdToHandle | drivers/gpu/drm/nouveau/nouveau_prime.c:126-188 | A registry hit returns the stored handle with 0 and puts the buffer back. Every later failure unmaps, detaches and puts, restoring the buffer's reference count and attachments. A failed handle creation leaves the new GEM object with no references. A failed insert leaves exactly one new handle with no references. Success registers (buffer, new handle) and keeps the reference. The new object's import_attach is the attachment made for this buffer, which holds the one mapping. A registry without duplicate buffers stays so |
| I915Dmabuf.MapDmaBuf | drivers/gpu/drm/i915/i915_gem_dmabuf.c:5-29 | Null on a lock failure or a failed page fetch. Pages are fetched only when the object has none, and existing pages are kept. Otherwise a new table of size / PAGE_SIZE entries over the object's pages. Pages fetched here are a new array |
| I915Dmabuf.UnmapDmaBuf | drivers/gpu/drm/i915/i915_gem_dmabuf.c:31-36 | The table is freed |
| I915Dmabuf.DmabufRelease | drivers/gpu/drm/i915/i915_gem_dmabuf.c:38-48 | When the released buffer is the cached export, prime_fd becomes -1, the export becomes NULL and one reference is dropped; otherwise the object is unchanged |
| I915Dmabuf.HandleToFd | drivers/gpu/drm/i915/i915_gem_dmabuf.c:56-94 | A lock failure is returned with nothing changed, and an unknown handle gives -EBADF. A cached prime_fd is returned with 0 and the lookup reference dropped. An export failure returns its error, keeps the lookup reference and leaves the ERR_PTR cached. A first export caches the buffer and descriptor and keeps the reference |
| I915Dmabuf.CopyPages | drivers/gpu/drm/i915/i915_gem_dmabuf.c:157-158 | Page i of the object is the page of table entry i, for every i below npages |
| I915Dmabuf.CreateObject | drivers/gpu/drm/i915/i915_gem_dmabuf.c:138-149 | A new zeroed driver object whose embedded GEM object is initialised to the buffer's size, or null when kzalloc or initialisation fails |
| I915Dmabuf.ImportObject | drivers/gpu/drm/i915/i915_gem_dmabuf.c:151-185 | A failed page array or handle returns the error with the buffer reference, the attachment and its mapping kept. Otherwise the object holds the copied pages, the attachment and the table. A successful insert returns 0 with the buffer registered, the buffer reference dropped and the attachment unmapped and detached. A failed insert returns 0 with a handle, the registry unchanged and the buffer still held |
| I915Dmabuf.ImportAttached | drivers/gpu/drm/i915/i915_gem_dmabuf.c:138-185 | A failed object creation returns -ENOMEM after unmapping, detaching and putting the buffer; the later paths are ImportObject's, stated against the new object as seen from the file's handle table |
| I915Dmabuf.ImportMiss | drivers/gpu/drm/i915/i915_gem_dmabuf.c:122-185 | After a miss, holding the buffer reference: attach, map and object failures put the buffer and leave its attachments as they were; the page-array and handle failures keep the reference and one mapped new attachment; the inverted insert outcomes are ImportAttached's, both returning 0 |
| I915Dmabuf.FdToHandle | drivers/gpu/drm/i915/i915_gem_dmabuf.c:96-186 | A registry hit returns 0 with the stored handle and puts the buffer. Attach, map and object failures release everything taken. The page-array and handle failures keep the buffer reference, the attachment and its mapping. The two insert outcomes are as in ImportObject, so both return 0. A registry without duplicate buffers stays so |

## Left out

- The dma-buf transport (get, put, fd, export, attach, detach, map, unmap) is not implemented: each call is a method that keeps a reference count, a set of attachments or a set of mappings. Get fails only for a descriptor missing from the table; fd, export, attach and map may fail with an arbitrary errno; put, detach and unmap always succeed. Reference-count release never frees anything here.
- GEM internals (handle table, object allocation and initialisation, lookup, release) and the drivers' buffer allocators (nouveau_bo_new, nouveau_bo_pin, i915_gem_object_get_pages_gtt, drm_malloc_ab, kzalloc, kmalloc) are abstract calls that either succeed as described or fail.
- Locking: struct_mutex is not modelled; i915's interruptible lock appears only as a call that may return an error. Races between concurrent imports are out of scope.
- Freeing is not observable: kfree, sg_free_table, drm_gem_object_release and the object free paths are not modelled. A freed table is only marked as no longer live. The free path runs whenever an import drops an object's last reference. The generic import relies on it on a failed insert. Nouveau drops the last reference both when handle creation fails and when the insert fails, in each case before its own unmap and detach. None of these free-path detaches is represented.
- The driver's prime_import and prime_export callbacks are abstract: an import returns a fresh object, so a driver re-importing its own export is not modelled.
- DmaBufs.DmaBufFd treats a pointer that is not a buffer (a cached ERR_PTR or NULL) as a call that fails with a negative descriptor; what the real call does with such a pointer is not modelled.
- The page size is a positive constant, and pages are opaque tokens.
- i915's `int size` copy of the buffer size is not truncated to 32 bits.
- nouveau's `int npages` copy of the buffer object's page count is not truncated to 32 bits.
- DmaBufs.DmaBufMapAttachment, NouveauPrime.FdToHandle and I915Dmabuf.FdToHandle: the map is assumed never to return NULL and always to cover the buffer with one page per entry. Both importers test only for an ERR_PTR, so a NULL table would go on into nouveau's buffer-object creation and into i915's page-copy loop, which also reads npages entries whatever the table's length. The model does not capture either case.
- DrmPrime.GemDestroy: requires that the attachment maps nothing except the given table, because the abstract detach requires an attachment with no mappings.
- I915Dmabuf.MapDmaBuf: requires that an existing page array covers the object's size, which the source leaves to the code that filled it.
- NouveauPrime.MapDmaBuf: requires that the buffer object's page array covers num_pages, which the source leaves to TTM.
- NouveauPrime.HandleToFd and I915Dmabuf.HandleToFd: require that the handle's object belongs to the driver, which the source ensures by having only that driver create its objects.
- The pin count of a nouveau buffer object is not modelled: the pin is a call that may fail.
- DRM_ERROR logging and EXPORT_SYMBOL are left out, and so is drivers/media/video/omap4iss/iss_csiphy.h, which declares a camera PHY and holds no PRIME logic.
