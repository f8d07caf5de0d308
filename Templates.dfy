/** The templates page: a list of reusable cover-letter and milestone snippets
    kept in the store under 'templates', seeded with ten defaults, with create,
    edit and delete dialogs. */
module TemplatesPage {
  import opened Optional
  import opened Text
  import opened Collections
  import opened Records
  import opened Storage

  /** The dialog form shared by the create and edit dialogs. */
  datatype TemplateForm = TemplateForm(name: string, coverSnippet: string, milestoneSnippet: string)

  const EmptyForm := TemplateForm("", "", "")

  /** A stored list of at most this many templates is replaced by the defaults. */
  const SeedThreshold := 2

  /** The name and the two snippets of a template. */
  datatype TemplateText = TemplateText(name: string, coverSnippet: string, milestoneSnippet: string)

  /** The texts of the ten default templates, in their order. */
  function DefaultTemplateText(i: nat): TemplateText
    requires i < 10
  {
    if i == 0 then TemplateText(
      "UI/UX Designer",
      ("Hello!\n\n"
        + "As a seasoned UI/UX designer with 5+ years of experience, I "
        + "specialize in creating intuitive, user-centered designs "
        + "that drive engagement and conversions. My expertise "
        + "includes user research, wireframing, prototyping, and "
        + "delivering pixel-perfect designs that enhance user "
        + "experience across web and mobile platforms.\n\n"
        + "I focus on understanding your users and business goals to "
        + "create designs that not only look great but also perform "
        + "exceptionally."),
      ("1. User Research & Analysis (3-4 days)\n"
        + "   - User interviews and surveys\n"
        + "   - Competitor analysis\n"
        + "   - User personas creation\n\n"
        + "2. Design & Prototyping (7-10 days)\n"
        + "   - Wireframes and mockups\n"
        + "   - Interactive prototypes\n"
        + "   - Design system creation\n\n"
        + "3. Testing & Refinement (2-3 days)\n"
        + "   - Usability testing\n"
        + "   - Design iterations\n"
        + "   - Final deliverables"))
    else if i == 1 then TemplateText(
      "Website Developer",
      ("Hi there!\n\n"
        + "I'm a full-stack web developer with expertise in modern "
        + "technologies including React, Node.js, and cloud "
        + "deployment. I build responsive, high-performance websites "
        + "that are SEO-optimized and mobile-friendly. My focus is on "
        + "clean code, fast loading times, and excellent user "
        + "experience.\n\n"
        + "I deliver websites that not only look great but also rank "
        + "well in search engines and convert visitors into customers."),
      ("1. Planning & Setup (3-4 days)\n"
        + "   - Requirements analysis\n"
        + "   - Technical architecture\n"
        + "   - Development environment\n\n"
        + "2. Development (8-12 days)\n"
        + "   - Responsive frontend\n"
        + "   - Backend functionality\n"
        + "   - Database integration\n\n"
        + "3. Optimization & Launch (2-3 days)\n"
        + "   - Performance optimization\n"
        + "   - SEO implementation\n"
        + "   - Deployment & testing"))
    else if i == 2 then TemplateText(
      "Mobile App Developer",
      ("Hello!\n\n"
        + "I'm a specialized mobile app developer with experience in "
        + "React Native, Flutter, and native iOS/Android development. "
        + "I create cross-platform mobile applications that deliver "
        + "native performance with smooth user interfaces. My apps are "
        + "optimized for app store approval and user engagement.\n\n"
        + "I focus on creating apps that users love to use and that "
        + "drive business results."),
      ("1. App Design & Planning (4-5 days)\n"
        + "   - UI/UX design\n"
        + "   - Technical architecture\n"
        + "   - Feature specification\n\n"
        + "2. Development Phase (12-16 days)\n"
        + "   - Core functionality\n"
        + "   - API integration\n"
        + "   - Testing on devices\n\n"
        + "3. Store Launch (3-4 days)\n"
        + "   - App store optimization\n"
        + "   - Submission process\n"
        + "   - Launch support"))
    else if i == 3 then TemplateText(
      "Backend Developer",
      ("Hi!\n\n"
        + "I'm a backend specialist with expertise in Node.js, Python, "
        + "and cloud architecture. I build scalable APIs, "
        + "microservices, and database solutions that handle high "
        + "traffic loads. My focus is on security, performance "
        + "optimization, and reliable system architecture.\n\n"
        + "I create robust backend systems that support your business "
        + "growth and ensure data security."),
      ("1. Architecture & Planning (3-4 days)\n"
        + "   - System design\n"
        + "   - Database schema\n"
        + "   - API specification\n\n"
        + "2. Development (10-14 days)\n"
        + "   - API development\n"
        + "   - Database implementation\n"
        + "   - Security features\n\n"
        + "3. Testing & Deployment (3-4 days)\n"
        + "   - Performance testing\n"
        + "   - Security audit\n"
        + "   - Production deployment"))
    else if i == 4 then TemplateText(
      "CMS Developer",
      ("Hello!\n\n"
        + "I'm an expert in content management systems including "
        + "WordPress, Drupal, and headless CMS solutions. I create "
        + "custom themes, plugins, and integrations that make content "
        + "management easy for clients. My solutions are secure, "
        + "SEO-friendly, and easily maintainable.\n\n"
        + "I help businesses manage their content efficiently while "
        + "maintaining professional design and functionality."),
      ("1. CMS Setup & Configuration (3-4 days)\n"
        + "   - Platform installation\n"
        + "   - Initial configuration\n"
        + "   - Security setup\n\n"
        + "2. Customization (6-8 days)\n"
        + "   - Custom theme development\n"
        + "   - Plugin/module creation\n"
        + "   - Content structure\n\n"
        + "3. Training & Launch (2-3 days)\n"
        + "   - User training\n"
        + "   - Documentation\n"
        + "   - Go-live support"))
    else if i == 5 then TemplateText(
      "Database Developer",
      ("Hi there!\n\n"
        + "I'm a database specialist with expertise in MySQL, "
        + "PostgreSQL, MongoDB, and cloud databases. I design "
        + "efficient database schemas, optimize queries for "
        + "performance, and ensure data security and backup "
        + "strategies. My solutions handle complex data relationships "
        + "and high-volume operations.\n\n"
        + "I create database systems that scale with your business and "
        + "keep your data safe and accessible."),
      ("1. Database Design (4-5 days)\n"
        + "   - Schema design\n"
        + "   - Relationship mapping\n"
        + "   - Performance planning\n\n"
        + "2. Implementation (6-8 days)\n"
        + "   - Database creation\n"
        + "   - Query optimization\n"
        + "   - Security implementation\n\n"
        + "3. Testing & Documentation (2-3 days)\n"
        + "   - Performance testing\n"
        + "   - Backup procedures\n"
        + "   - Technical documentation"))
    else if i == 6 then TemplateText(
      "DevOps Developer",
      ("Hello!\n\n"
        + "I'm a DevOps engineer specializing in CI/CD pipelines, "
        + "cloud infrastructure, and automation. I work with AWS, "
        + "Docker, Kubernetes, and various deployment tools to ensure "
        + "smooth, automated deployments and reliable system "
        + "monitoring. My focus is on scalability and system "
        + "reliability.\n\n"
        + "I help teams deploy faster and more reliably while reducing "
        + "operational overhead."),
      ("1. Infrastructure Setup (4-5 days)\n"
        + "   - Cloud environment setup\n"
        + "   - Security configuration\n"
        + "   - Monitoring implementation\n\n"
        + "2. CI/CD Pipeline (6-8 days)\n"
        + "   - Automated testing\n"
        + "   - Deployment automation\n"
        + "   - Environment management\n\n"
        + "3. Optimization & Documentation (2-3 days)\n"
        + "   - Performance optimization\n"
        + "   - Team training\n"
        + "   - Process documentation"))
    else if i == 7 then TemplateText(
      "No-Code Developer",
      ("Hi!\n\n"
        + "I'm a no-code specialist using platforms like Bubble, "
        + "Webflow, Zapier, and Airtable to build powerful "
        + "applications without traditional coding. I help businesses "
        + "rapidly prototype and deploy solutions that are "
        + "cost-effective and easily maintainable by non-technical "
        + "teams.\n\n"
        + "I deliver functional applications quickly while keeping "
        + "costs low and maintenance simple."),
      ("1. Platform Setup & Design (3-4 days)\n"
        + "   - Platform selection\n"
        + "   - Initial setup\n"
        + "   - UI/UX design\n\n"
        + "2. Application Development (6-8 days)\n"
        + "   - Core functionality\n"
        + "   - Workflow automation\n"
        + "   - Integration setup\n\n"
        + "3. Testing & Training (2-3 days)\n"
        + "   - User testing\n"
        + "   - Team training\n"
        + "   - Documentation"))
    else if i == 8 then TemplateText(
      "AI Developer",
      ("Hello!\n\n"
        + "I'm an AI/ML specialist with experience in machine "
        + "learning, natural language processing, and AI integrations. "
        + "I work with OpenAI APIs, TensorFlow, and other AI "
        + "frameworks to build intelligent applications. My solutions "
        + "include chatbots, recommendation systems, and automated "
        + "data analysis.\n\n"
        + "I help businesses leverage AI to automate processes and "
        + "gain insights from their data."),
      ("1. AI Strategy & Planning (4-5 days)\n"
        + "   - Use case analysis\n"
        + "   - Model selection\n"
        + "   - Data preparation\n\n"
        + "2. Development & Training (10-14 days)\n"
        + "   - Model implementation\n"
        + "   - Training and testing\n"
        + "   - Integration development\n\n"
        + "3. Deployment & Optimization (3-4 days)\n"
        + "   - Production deployment\n"
        + "   - Performance monitoring\n"
        + "   - Model optimization"))
    else TemplateText(
      "E-commerce Developer",
      ("Hi there!\n\n"
        + "I'm an e-commerce specialist with expertise in Shopify, "
        + "WooCommerce, and custom e-commerce solutions. I build "
        + "online stores that drive sales with optimized checkout "
        + "flows, payment integrations, and inventory management. My "
        + "focus is on conversion optimization and user experience.\n\n"
        + "I create online stores that not only look professional but "
        + "also maximize sales and customer satisfaction."),
      ("1. Store Setup & Design (4-5 days)\n"
        + "   - Platform configuration\n"
        + "   - Theme customization\n"
        + "   - Payment integration\n\n"
        + "2. Product & Feature Development (8-10 days)\n"
        + "   - Product catalog setup\n"
        + "   - Checkout optimization\n"
        + "   - Inventory management\n\n"
        + "3. Launch & Optimization (3-4 days)\n"
        + "   - Performance testing\n"
        + "   - SEO optimization\n"
        + "   - Go-live support"))
  }

  /** The ten default templates, with ids "1" to "10", all stamped `now`. */
  function DefaultTemplates(now: string): (r: seq<Template>)
    ensures |r| == 10
    ensures forall i :: 0 <= i < |r| ==>
      && r[i].id == NatToString(i + 1) && r[i].name == DefaultTemplateText(i).name
      && r[i].coverSnippet == DefaultTemplateText(i).coverSnippet
      && r[i].milestoneSnippet == DefaultTemplateText(i).milestoneSnippet
      && r[i].createdAt == now && r[i].updatedAt == None
  {
    seq(10, i requires 0 <= i < 10 =>
      var text := DefaultTemplateText(i);
      Template(NatToString(i + 1), text.name, text.coverSnippet, text.milestoneSnippet, now, None))
  }

  /** The default templates have pairwise distinct ids, so each can be edited and
      deleted on its own. */
  lemma DefaultTemplateIdsDistinct(now: string)
    ensures forall i, j :: 0 <= i < j < 10 ==> DefaultTemplates(now)[i].id != DefaultTemplates(now)[j].id
  {
    var r := DefaultTemplates(now);
    forall i, j | 0 <= i < j < 10
      ensures r[i].id != r[j].id
    {
      if r[i].id == r[j].id {
        NatToStringInjective(i + 1, j + 1);
      }
    }
  }

  /** The template a successful create appends. */
  function NewTemplate(form: TemplateForm, id: string, now: string): Template {
    Template(id, form.name, form.coverSnippet, form.milestoneSnippet, now, None)
  }

  /** The template a successful update writes back: the edited one with the form's
      fields and a fresh `updatedAt`; its id and creation time are kept. */
  function EditedTemplate(t: Template, form: TemplateForm, now: string): (r: Template)
    ensures r.id == t.id && r.createdAt == t.createdAt && r.updatedAt == Some(now)
    ensures r.name == form.name && r.coverSnippet == form.coverSnippet && r.milestoneSnippet == form.milestoneSnippet
  {
    t.(name := form.name, coverSnippet := form.coverSnippet, milestoneSnippet := form.milestoneSnippet,
       updatedAt := Some(now))
  }

  class TemplatesPageState {
    const store: Store
    var templates: seq<Template>
    var createOpen: bool
    var editing: Option<Template>
    var form: TemplateForm

    constructor(store: Store)
      ensures this.store == store
      ensures templates == [] && !createOpen && editing == None && form == EmptyForm
    {
      this.store := store;
      templates := [];
      createOpen := false;
      editing := None;
      form := EmptyForm;
    }

    /** The list on screen is the stored list. */
    predicate Synced()
      reads this, store
    {
      templates == store.templates
    }

    /** The mount effect: a stored list of at most two templates, including none
        at all, is replaced by the ten defaults, in the store too; a longer list
        is shown as it is. Either way the store then holds more than two, so
        loading again keeps what is there. */
    method Load(now: string)
      modifies this, store`templates
      ensures |old(store.templates)| <= SeedThreshold ==> templates == DefaultTemplates(now)
      ensures |old(store.templates)| > SeedThreshold ==> templates == old(store.templates)
      ensures Synced() && |store.templates| > SeedThreshold
      ensures createOpen == old(createOpen) && editing == old(editing) && form == old(form)
    {
      var saved := store.templates;
      if |saved| <= SeedThreshold {
        var defaults := DefaultTemplates(now);
        templates := defaults;
        store.templates := defaults;
      } else {
        templates := saved;
      }
    }

    /** Typing in a dialog field. */
    method SetForm(f: TemplateForm)
      modifies this`form
      ensures form == f
    {
      form := f;
    }

    /** The create dialog's open state, set by its trigger button and by closing
        it from outside; neither touches the form. */
    method SetCreateOpen(open: bool)
      modifies this`createOpen
      ensures createOpen == open
    {
      createOpen := open;
    }

    /** The create dialog's Cancel button: closes it and clears the form. */
    method CancelCreate()
      modifies this`createOpen, this`form
      ensures !createOpen && form == EmptyForm
    {
      createOpen := false;
      form := EmptyForm;
    }

    /** `handleCreate`: a blank name is refused and nothing changes; otherwise
        the new template is appended to the list on screen, that list is stored,
        the form is cleared and the dialog closed. */
    method Create(id: string, now: string)
      modifies this, store`templates
      ensures IsBlank(old(form.name)) ==>
        templates == old(templates) && store.templates == old(store.templates)
        && form == old(form) && createOpen == old(createOpen)
      ensures !IsBlank(old(form.name)) ==>
        && templates == old(templates) + [NewTemplate(old(form), id, now)]
        && store.templates == templates
        && form == EmptyForm && !createOpen
      ensures editing == old(editing)
    {
      if IsBlank(form.name) {
        return;
      }
      var updated := templates + [NewTemplate(form, id, now)];
      templates := updated;
      store.templates := updated;
      form := EmptyForm;
      createOpen := false;
    }

    /** `handleEdit`: opens the edit dialog on `t` with its fields in the form. */
    method Edit(t: Template)
      modifies this`editing, this`form
      ensures editing == Some(t)
      ensures form == TemplateForm(t.name, t.coverSnippet, t.milestoneSnippet)
    {
      editing := Some(t);
      form := TemplateForm(t.name, t.coverSnippet, t.milestoneSnippet);
    }

    /** Closing the edit dialog from outside: the form is left as it is. */
    method DismissEdit()
      modifies this`editing
      ensures editing == None
    {
      editing := None;
    }

    /** The edit dialog's Cancel button. */
    method CancelEdit()
      modifies this`editing, this`form
      ensures editing == None && form == EmptyForm
    {
      editing := None;
      form := EmptyForm;
    }

    /** `handleUpdate`: without an edited template or with a blank name nothing
        changes; otherwise every template with the edited id is replaced by the
        edited version, the list is stored, the dialog closed and the form cleared. */
    method Update(now: string)
      modifies this, store`templates
      ensures old(editing).None? || IsBlank(old(form.name)) ==>
        templates == old(templates) && store.templates == old(store.templates)
        && editing == old(editing) && form == old(form)
      ensures old(editing).Some? && !IsBlank(old(form.name)) ==>
        && templates == ReplaceKey(old(templates), TemplateId, old(editing).value.id,
                                   EditedTemplate(old(editing).value, old(form), now))
        && store.templates == templates
        && editing == None && form == EmptyForm
      ensures createOpen == old(createOpen)
    {
      if editing.Some? && !IsBlank(form.name) {
        var t := editing.value;
        var updated := ReplaceKey(templates, TemplateId, t.id, EditedTemplate(t, form, now));
        templates := updated;
        store.templates := updated;
        editing := None;
        form := EmptyForm;
      }
    }

    /** `handleDelete`: after confirmation, every template with the id is removed
        from the list on screen and the result stored. */
    method Delete(id: string, confirmed: bool)
      modifies this`templates, store`templates
      ensures !confirmed ==> templates == old(templates) && store.templates == old(store.templates)
      ensures confirmed ==> templates == RemoveKey(old(templates), TemplateId, id) && store.templates == templates
    {
      if confirmed {
        var updated := RemoveKey(templates, TemplateId, id);
        templates := updated;
        store.templates := updated;
      }
    }
  }

  /** Deleting a template just created with a fresh id gives back the list as it
      was before the create. */
  lemma CreateThenDelete(templates: seq<Template>, form: TemplateForm, id: string, now: string)
    requires !HasKey(templates, TemplateId, id)
    ensures RemoveKey(templates + [NewTemplate(form, id, now)], TemplateId, id) == templates
  {
    RemoveKeyAfterAppend(templates, TemplateId, NewTemplate(form, id, now));
  }

  /** An update keeps the list's length and every position's id, and changes only
      the templates with the edited id. */
  lemma UpdateKeepsIds(templates: seq<Template>, t: Template, form: TemplateForm, now: string)
    ensures |ReplaceKey(templates, TemplateId, t.id, EditedTemplate(t, form, now))| == |templates|
    ensures forall i :: 0 <= i < |templates| ==>
      ReplaceKey(templates, TemplateId, t.id, EditedTemplate(t, form, now))[i].id == templates[i].id
    ensures forall i :: 0 <= i < |templates| && templates[i].id != t.id ==>
      ReplaceKey(templates, TemplateId, t.id, EditedTemplate(t, form, now))[i] == templates[i]
  {
  }
}
