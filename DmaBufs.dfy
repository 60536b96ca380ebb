/**
 * The dma-buf transport as this model sees it from outside: a reference-counted shareable
 * buffer, its device attachments, the scatter tables mapped through them, and the process
 * file-descriptor table. Every operation is abstract: it keeps the counters and sets below
 * and may fail with an arbitrary errno where the real one can fail.
 */
module DmaBufs {
  import opened Kernel

  /** An arbitrary negated errno: the error an abstract operation fails with. */
  method SomeErrno() returns (e: int)
    ensures IsErrno(e)
  {
    assert IsErrno(-ENOMEM);
    e :| IsErrno(e);
  }

  /** One scatterlist entry: a page, the length covered and the offset into the page. */
  datatype Segment = Segment(page: Page, length: nat, offset: nat)

  /** struct sg_table: its entries, and whether the table is still allocated. */
  class SgTable {
    var sgl: array<Segment>
    var live: bool

    /** kzalloc of an empty table. */
    constructor Empty()
      ensures sgl.Length == 0 && fresh(sgl) && live
    {
      sgl := new Segment[0];
      live := true;
    }
  }

  /**
   * struct dma_buf. The pointer identity of a DmaBuf object is the identity of the shared
   * buffer; `refs` counts the references to its file.
   */
  class DmaBuf {
    const size: nat
    /** dma_buf->priv: the exporter's object. */
    const priv: object?
    var refs: int
    var attachments: set<Attachment>

    constructor (size: nat, priv: object?)
      ensures this.size == size && this.priv == priv
      ensures refs == 1 && attachments == {}
    {
      this.size := size;
      this.priv := priv;
      refs := 1;
      attachments := {};
    }
  }

  /** struct dma_buf_attachment: one device attached to a buffer, and its live mappings. */
  class Attachment {
    const dmabuf: DmaBuf
    var mapped: set<SgTable>

    constructor (dmabuf: DmaBuf)
      ensures this.dmabuf == dmabuf && mapped == {}
    {
      this.dmabuf := dmabuf;
      mapped := {};
    }
  }

  /** The calling process's descriptor table, restricted to descriptors naming dma-bufs. */
  class FdTable {
    var files: map<int, DmaBuf>
  }

  /** The buffer a descriptor names, as a set: empty when it names none. */
  function BufferOf(fds: FdTable, fd: int): set<DmaBuf>
    reads fds
  {
    if fd in fds.files then {fds.files[fd]} else {}
  }

  /** dma_buf_get: takes a reference on the buffer a descriptor names. */
  method DmaBufGet(fds: FdTable, fd: int) returns (p: Ptr<DmaBuf>)
    modifies BufferOf(fds, fd)`refs
    ensures p.WellFormed() && !p.Null?
    ensures fd in fds.files ==> p == Addr(fds.files[fd]) && p.target.refs == old(p.target.refs) + 1
    ensures fd !in fds.files ==> p.ErrPtr?
  {
    if fd in fds.files {
      var buf := fds.files[fd];
      buf.refs := buf.refs + 1;
      p := Addr(buf);
    } else {
      var e := SomeErrno();
      p := ErrPtr(e);
    }
  }

  /** dma_buf_put: drops one reference. */
  method DmaBufPut(buf: DmaBuf)
    modifies buf`refs
    ensures buf.refs == old(buf.refs) - 1
  {
    buf.refs := buf.refs - 1;
  }

  /**
   * dma_buf_fd: binds the buffer to a new descriptor, which takes over the caller's reference
   * (the count is not changed). A pointer that is not a buffer makes the call fail.
   */
  method DmaBufFd(fds: FdTable, p: Ptr<DmaBuf>) returns (fd: int)
    modifies fds
    ensures fd >= 0 || IsErrno(fd)
    ensures !p.Addr? ==> fd < 0
    ensures fd >= 0 ==> p.Addr? && fd !in old(fds.files) && fds.files == old(fds.files)[fd := p.target]
    ensures fd < 0 ==> fds.files == old(fds.files)
  {
    // get_unused_fd either finds a free descriptor or fails
    var unused: int := *;
    if p.Addr? && unused >= 0 && unused !in fds.files {
      fd := unused;
      fds.files := fds.files[fd := p.target];
    } else {
      fd := SomeErrno();
    }
  }

  /** dma_buf_export: wraps an exporter's object in a new buffer holding one reference. */
  method DmaBufExport(priv: object?, size: nat) returns (p: Ptr<DmaBuf>)
    ensures p.WellFormed() && !p.Null?
    ensures p.Addr? ==> fresh(p.target) && p.target.priv == priv && p.target.size == size
    ensures p.Addr? ==> p.target.refs == 1 && p.target.attachments == {}
  {
    var ok: bool := *;
    if ok {
      var buf := new DmaBuf(size, priv);
      p := Addr(buf);
    } else {
      var e := SomeErrno();
      p := ErrPtr(e);
    }
  }

  /** dma_buf_attach: attaches a device to the buffer. */
  method DmaBufAttach(buf: DmaBuf) returns (p: Ptr<Attachment>)
    modifies buf`attachments
    ensures p.WellFormed() && !p.Null?
    ensures p.Addr? ==> fresh(p.target) && p.target.dmabuf == buf && p.target.mapped == {}
    ensures p.Addr? ==> buf.attachments == old(buf.attachments) + {p.target}
    ensures p.ErrPtr? ==> buf.attachments == old(buf.attachments)
  {
    var ok: bool := *;
    if ok {
      var a := new Attachment(buf);
      buf.attachments := buf.attachments + {a};
      p := Addr(a);
    } else {
      var e := SomeErrno();
      p := ErrPtr(e);
    }
  }

  /**
   * dma_buf_detach: removes an attachment. The model asks that its mappings are gone first,
   * which is the order every caller here follows.
   */
  method DmaBufDetach(buf: DmaBuf, attach: Attachment)
    requires attach.dmabuf == buf && attach.mapped == {}
    modifies buf`attachments
    ensures buf.attachments == old(buf.attachments) - {attach}
  {
    buf.attachments := buf.attachments - {attach};
  }

  /**
   * dma_buf_map_attachment: the exporter builds a scatter table for the attachment, one
   * page per entry, covering the buffer.
   */
  method DmaBufMapAttachment(attach: Attachment) returns (p: Ptr<SgTable>)
    modifies attach`mapped
    ensures p.WellFormed() && !p.Null?
    ensures p.Addr? ==> fresh(p.target) && fresh(p.target.sgl) && p.target.live
    ensures p.Addr? ==> p.target.sgl.Length == attach.dmabuf.size / PAGE_SIZE
    ensures p.Addr? ==> attach.mapped == old(attach.mapped) + {p.target}
    ensures p.ErrPtr? ==> attach.mapped == old(attach.mapped)
  {
    var ok: bool := *;
    if ok {
      var sg := new SgTable.Empty();
      sg.sgl := new Segment[attach.dmabuf.size / PAGE_SIZE];
      attach.mapped := attach.mapped + {sg};
      p := Addr(sg);
    } else {
      var e := SomeErrno();
      p := ErrPtr(e);
    }
  }

  /** dma_buf_unmap_attachment: hands a mapped table back to the exporter. */
  method DmaBufUnmapAttachment(attach: Attachment, sg: SgTable)
    modifies attach`mapped
    ensures attach.mapped == old(attach.mapped) - {sg}
  {
    attach.mapped := attach.mapped - {sg};
  }
}
