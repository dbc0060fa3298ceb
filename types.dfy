/** The records the components exchange, one datatype per interface of
    src/types/index.ts that the modelled code uses. Timestamps and ids are
    opaque strings; money is a whole number of rupiah. */
module Types {
  import opened Basics

  /** 'admin' | 'user' */
  datatype Role = AdminRole | UserRole

  datatype User = User(
    id: string,
    name: string,
    email: string,
    role: Role,
    avatar: Option<string>,
    phone: Option<string>,
    address: Option<string>,
    createdAt: string,
    updatedAt: string,
    isActive: bool)

  /** `user?.role === role`: someone is signed in, with that role. */
  predicate HasRole(viewer: Option<User>, role: Role) {
    viewer.Some? && viewer.value.role == role
  }

  /** The session record: who is signed in, and whether a session operation is still running. */
  datatype AuthState = AuthState(user: Option<User>, isAuthenticated: bool, isLoading: bool)

  datatype Product = Product(
    id: string,
    name: string,
    description: string,
    price: int,
    category: string,
    imageUrl: string,
    stock: int,
    isActive: bool,
    createdAt: string,
    updatedAt: string)

  /** One cart line: a snapshot of the product and the unit price captured when it was added. */
  datatype CartItem = CartItem(
    id: string,
    productId: string,
    product: Product,
    quantity: int,
    price: int)

  /** MonitoringData.type */
  datatype SensorType = Sensor | Operational | Fuel | MaintenanceSensor | SystemSensor

  /** MonitoringData.status */
  datatype ReadingStatus = Normal | Warning | Critical

  datatype MonitoringData = MonitoringData(
    id: string,
    kind: SensorType,
    name: string,
    value: real,
    unit: string,
    status: ReadingStatus,
    location: Option<string>,
    timestamp: string)

  /** MonitoringAlert.type */
  datatype AlertType = WarningAlert | CriticalAlert | InfoAlert

  datatype MonitoringAlert = MonitoringAlert(
    id: string,
    kind: AlertType,
    title: string,
    isRead: bool,
    createdAt: string)

  datatype RequestCategory = Repair | Inspection | Replacement | Upgrade {
    function Name(): string {
      match this
      case Repair => "repair"
      case Inspection => "inspection"
      case Replacement => "replacement"
      case Upgrade => "upgrade"
    }
  }

  datatype Priority = Low | Medium | High | Urgent {
    function Name(): string {
      match this
      case Low => "low"
      case Medium => "medium"
      case High => "high"
      case Urgent => "urgent"
    }
  }

  datatype RequestStatus = Pending | Approved | InProgress | Completed | Rejected {
    function Name(): string {
      match this
      case Pending => "pending"
      case Approved => "approved"
      case InProgress => "in_progress"
      case Completed => "completed"
      case Rejected => "rejected"
    }
  }

  datatype MaintenanceRequest = MaintenanceRequest(
    id: string,
    userId: string,
    user: User,
    title: string,
    description: string,
    category: RequestCategory,
    priority: Priority,
    status: RequestStatus,
    assignedTo: Option<string>,
    estimatedCost: Option<int>,
    actualCost: Option<int>,
    scheduledDate: Option<string>,
    completedDate: Option<string>,
    images: Option<seq<string>>,
    adminNotes: Option<string>,
    createdAt: string,
    updatedAt: string)

  /** The registration form's fields (phone is always present in the form, possibly empty). */
  datatype RegisterFormData = RegisterFormData(
    name: string,
    email: string,
    phone: string,
    password: string,
    password_confirmation: string)

  /** What the product form hands to the catalog on save. */
  datatype ProductFormData = ProductFormData(
    name: string,
    description: string,
    price: int,
    category: string,
    stock: int,
    imageUrl: string,
    isActive: bool)
}
