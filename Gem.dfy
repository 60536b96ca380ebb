/**
 * The GEM side that PRIME works against: GEM objects with the fields PRIME reads and
 * writes, the per-file handle table, and the device's PRIME feature flags and driver
 * callbacks. Handle-table internals and the drivers' callbacks are abstract here.
 */
module Gem {
  import opened Kernel
  import opened DmaBufs

  /**
   * struct drm_gem_object, restricted to what PRIME touches. `refs` is the object's
   * reference count and `handleCount` the number of handles naming it.
   */
  class GemObject {
    var size: nat
    var refs: int
    var handleCount: int
    /** The cached export; after a failed export the ERR_PTR or NULL stays here. */
    var exportDmaBuf: Ptr<DmaBuf>
    /** The cached descriptor of the export, -1 when there is none (nouveau and i915). */
    var primeFd: int
    var importAttach: Attachment?
    /** obj->driver_private (nouveau's buffer object). */
    var driverPrivate: object?
    /** The driver object this one is embedded in (i915's container_of). */
    var container: object?

    /** Zero-filled storage, as kzalloc returns it. */
    constructor Zeroed()
      ensures size == 0 && refs == 0 && handleCount == 0 && exportDmaBuf == Null && primeFd == 0
      ensures importAttach == null && driverPrivate == null && container == null
    {
      size, refs, handleCount := 0, 0, 0;
      exportDmaBuf, primeFd := Null, 0;
      importAttach, driverPrivate, container := null, null, null;
    }
  }

  /** Whether an object is in the state object initialisation leaves it in. */
  predicate Initialised(obj: GemObject, size: nat)
    reads obj
  {
    obj.size == size && obj.refs == 1 && obj.handleCount == 0 &&
    obj.exportDmaBuf == Null && obj.primeFd == -1 && obj.importAttach == null
  }

  /** drm_gem_private_object_init: initialises an object holding one reference; may fail. */
  method PrivateObjectInit(obj: GemObject, size: nat) returns (ret: int)
    modifies obj`size, obj`refs, obj`handleCount, obj`exportDmaBuf, obj`primeFd, obj`importAttach
    ensures ret == 0 || IsErrno(ret)
    ensures ret == 0 ==> Initialised(obj, size)
    ensures ret != 0 ==> unchanged(obj)
  {
    var ok: bool := *;
    if ok {
      obj.size, obj.refs, obj.handleCount := size, 1, 0;
      obj.exportDmaBuf, obj.primeFd, obj.importAttach := Null, -1, null;
      ret := 0;
    } else {
      ret := SomeErrno();
    }
  }

  /** drm_gem_object_alloc: a new initialised object, or null. */
  method ObjectAlloc(size: nat) returns (obj: GemObject?)
    ensures obj != null ==> fresh(obj) && Initialised(obj, size)
    ensures obj != null ==> obj.driverPrivate == null && obj.container == null
  {
    var ok: bool := *;
    if ok {
      obj := new GemObject.Zeroed();
      var ret := PrivateObjectInit(obj, size);
      if ret != 0 {
        obj := null;
      }
    } else {
      obj := null;
    }
  }

  /** struct drm_file: the per-file table from handles to objects. */
  class DrmFile {
    var handles: map<Handle, GemObject>
  }

  /** The object a handle names, as a set: empty for an unknown handle. */
  function Named(file: DrmFile, handle: Handle): set<GemObject>
    reads file
  {
    if handle in file.handles then {file.handles[handle]} else {}
  }

  /** drm_gem_object_lookup: the object a handle names, with one more reference, or null. */
  method ObjectLookup(file: DrmFile, handle: Handle) returns (obj: GemObject?)
    modifies Named(file, handle)`refs
    ensures handle in file.handles ==> obj == file.handles[handle] && obj.refs == old(obj.refs) + 1
    ensures handle !in file.handles ==> obj == null
  {
    if handle in file.handles {
      obj := file.handles[handle];
      obj.refs := obj.refs + 1;
    } else {
      obj := null;
    }
  }

  /** drm_gem_object_unreference(_unlocked): drops one reference. */
  method ObjectUnreference(obj: GemObject)
    modifies obj`refs
    ensures obj.refs == old(obj.refs) - 1
  {
    obj.refs := obj.refs - 1;
  }

  /**
   * drm_gem_handle_create: on success a new handle names the object and holds a reference
   * and a handle count on it; on failure nothing changes.
   */
  method HandleCreate(file: DrmFile, obj: GemObject) returns (ret: int, handle: Handle)
    modifies file`handles, obj`refs, obj`handleCount
    ensures ret == 0 || IsErrno(ret)
    ensures ret == 0 ==> handle !in old(file.handles) && file.handles == old(file.handles)[handle := obj]
    ensures ret == 0 ==> obj.refs == old(obj.refs) + 1 && obj.handleCount == old(obj.handleCount) + 1
    ensures ret != 0 ==> unchanged(file) && unchanged(obj)
  {
    var candidate: int := *;
    if candidate > 0 && candidate !in file.handles {
      handle := candidate;
      file.handles := file.handles[handle := obj];
      obj.refs, obj.handleCount := obj.refs + 1, obj.handleCount + 1;
      ret := 0;
    } else {
      handle := 0;
      ret := SomeErrno();
    }
  }

  /**
   * drm_gem_object_handle_unreference_unlocked: drops a handle count and its reference. The
   * handle's entry in the file's table is not touched by this call.
   */
  method HandleUnreference(obj: GemObject)
    modifies obj`refs, obj`handleCount
    ensures obj.handleCount == old(obj.handleCount) - 1 && obj.refs == old(obj.refs) - 1
  {
    obj.handleCount := obj.handleCount - 1;
    obj.refs := obj.refs - 1;
  }

  /**
   * struct drm_device with its driver, as PRIME sees it: the DRIVER_PRIME feature, which of
   * the two PRIME callbacks the driver provides, and how often each has been called.
   */
  class DrmDevice {
    const primeFeature: bool
    const hasPrimeExport: bool
    const hasPrimeImport: bool
    var exportCalls: nat
    var importCalls: nat

    constructor (primeFeature: bool, hasPrimeExport: bool, hasPrimeImport: bool)
      ensures this.primeFeature == primeFeature && this.hasPrimeExport == hasPrimeExport
      ensures this.hasPrimeImport == hasPrimeImport && exportCalls == 0 && importCalls == 0
    {
      this.primeFeature, this.hasPrimeExport, this.hasPrimeImport := primeFeature, hasPrimeExport, hasPrimeImport;
      exportCalls, importCalls := 0, 0;
    }
  }

  /**
   * dev->driver->prime_export: the driver wraps the object in a new dma-buf, or returns an
   * ERR_PTR or NULL.
   */
  method PrimeExport(dev: DrmDevice, obj: GemObject, flags: int) returns (p: Ptr<DmaBuf>)
    requires dev.hasPrimeExport
    modifies dev`exportCalls
    ensures dev.exportCalls == old(dev.exportCalls) + 1
    ensures p.WellFormed()
    ensures p.Addr? ==> fresh(p.target) && p.target.refs == 1 && p.target.attachments == {}
  {
    dev.exportCalls := dev.exportCalls + 1;
    var outcome: int := *;
    if outcome == 0 {
      p := Null;
    } else if outcome < 0 {
      var e := SomeErrno();
      p := ErrPtr(e);
    } else {
      var buf := new DmaBuf(obj.size, obj);
      p := Addr(buf);
    }
  }

  /**
   * dev->driver->prime_import: the driver makes a new object for the dma-buf, holding one
   * reference for the caller, or returns an ERR_PTR or NULL.
   */
  method PrimeImport(dev: DrmDevice, buf: DmaBuf) returns (p: Ptr<GemObject>)
    requires dev.hasPrimeImport
    modifies dev`importCalls
    ensures dev.importCalls == old(dev.importCalls) + 1
    ensures p.WellFormed()
    ensures p.Addr? ==> fresh(p.target) && Initialised(p.target, buf.size)
  {
    dev.importCalls := dev.importCalls + 1;
    var outcome: int := *;
    if outcome == 0 {
      p := Null;
    } else if outcome < 0 {
      var e := SomeErrno();
      p := ErrPtr(e);
    } else {
      var obj := new GemObject.Zeroed();
      var ret := PrivateObjectInit(obj, buf.size);
      p := if ret == 0 then Addr(obj) else ErrPtr(ret);
    }
  }
}
