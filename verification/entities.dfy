/** The record shapes shared by the stores: missions and applications
    (src/stores/missions.ts), bakeries (src/stores/bakeries.ts), professionals
    (src/stores/professionals.ts), completed missions (src/stores/professionalsStats.ts),
    blog posts (src/stores/blog.ts) and the signed-in user (src/stores/auth.ts).
    Free-text and display-only fields of the seed data are not modelled. */
module Entities {
  import opened Wrappers
  import opened Calendar

  datatype MissionType = Ponctuel | Recurrent | Urgence | Evenement

  /** The string literal the source stores in `Mission.type`. */
  function MissionTypeName(t: MissionType): string {
    match t
    case Ponctuel => "ponctuel"
    case Recurrent => "recurrent"
    case Urgence => "urgence"
    case Evenement => "evenement"
  }

  datatype Position = Boulanger | Patissier | Vendeur | Tourneur

  /** The string literal the source stores in `Mission.position`. */
  function PositionName(p: Position): string {
    match p
    case Boulanger => "boulanger"
    case Patissier => "patissier"
    case Vendeur => "vendeur"
    case Tourneur => "tourneur"
  }

  datatype MissionStatus = Open | Filled | Completed | Cancelled

  datatype Urgency = Immediate | SameDay | WithinWeek

  /** Where a mission takes place (the street address is display text and is not kept). */
  datatype Location = Location(city: string, postalCode: string)

  /** A job posting; titles, descriptions, schedules, requirements and addresses are
      display text and are not kept. */
  datatype Mission = Mission(
    id: string,
    bakeryId: string,
    bakeryName: string,
    bakeryAvatar: Option<string>,
    missionType: MissionType,
    position: Position,
    hourlyRate: int,
    status: MissionStatus,
    applicants: int,
    location: Location,
    urgency: Option<Urgency>)

  datatype ApplicationStatus = Pending | Accepted | Rejected | Withdrawn

  datatype Application = Application(
    id: string,
    missionId: string,
    professionalId: string,
    professionalName: string,
    professionalAvatar: Option<string>,
    message: string,
    proposedRate: Option<int>,
    status: ApplicationStatus,
    appliedAt: string)

  /** A bakery account (address, description and administrative fields not kept). */
  datatype Bakery = Bakery(
    id: string,
    name: string,
    email: string,
    password: string,
    avatar: Option<string>)

  /** One fixed row of a bakery's monthly statistics. Ratings are tenths, held as reals. */
  datatype BakeryMonthRow = BakeryMonthRow(
    missionsPosted: int,
    missionsFilled: int,
    applicationsReceived: int,
    avgRating: real)

  datatype Professional = Professional(
    id: string,
    firstName: string,
    lastName: string,
    avatar: Option<string>,
    yearsExperience: int,
    city: string,
    postalCode: string,
    hourlyRate: int,
    missionsCompleted: int,
    isPremium: bool)

  /** A finished mission of one professional; `completedOn` is the month of `completedDate`
      (the day, the title and the review are not kept). */
  datatype CompletedMission = CompletedMission(
    id: string,
    missionId: string,
    bakeryName: string,
    completedOn: YearMonth,
    hours: int,
    hourlyRate: int,
    totalEarnings: int,
    rating: Option<int>)

  /** One month of a professional's statistics window. */
  datatype ProMonthRow = ProMonthRow(
    missionsCompleted: int,
    totalHours: int,
    totalEarnings: int,
    avgRating: real)

  datatype BlogCategory = Technique | Business | Recettes | Tendances | Conseils | Actualites

  /** The string literal the source stores in `BlogPost.category`. */
  function CategoryName(c: BlogCategory): string {
    match c
    case Technique => "technique"
    case Business => "business"
    case Recettes => "recettes"
    case Tendances => "tendances"
    case Conseils => "conseils"
    case Actualites => "actualites"
  }

  /** A blog post; `publishedAt` is the publication instant as an integer that orders
      like the source's ISO timestamps, `imageUrl` is absent when no picture exists, and an
      absent `featured` flag reads as false. Title, excerpt, body, author and tags are
      display text and are not kept. */
  datatype BlogPost = BlogPost(
    id: string,
    publishedAt: int,
    category: BlogCategory,
    imageUrl: Option<string>,
    readTime: int,
    views: Option<int>,
    featured: bool)

  datatype UserType = BakeryAccount | ProfessionalAccount

  datatype WorkerStatus = AutoEntrepreneur | Interim

  /** The account profile; addresses, phone numbers, descriptions and the lists of
      specialties, days, certifications and pictures are display text and are not kept. */
  datatype Profile =
    | BakeryProfile(businessName: string, createdAt: string)
    | ProfessionalProfile(
        firstName: string,
        lastName: string,
        experience: int,
        hourlyRate: int,
        workerStatus: WorkerStatus,
        createdAt: string)

  datatype User = User(
    id: string,
    email: string,
    name: string,
    userType: UserType,
    avatar: Option<string>,
    profile: Profile)
}
